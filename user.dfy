/**
 * api/user.go: creating a user, reading back the authenticated user, and
 * logging in, which mints an access and a refresh token and stores a
 * session for the refresh token. util/password.go is not part of this
 * model: hashing is an outcome passed in (None when it fails), and checking
 * a password against a hash is a function passed in.
 */
module ApiUser {
  import opened Common
  import opened TokenPayload
  import TokenMaker
  import Db
  import opened ApiServer

  /** The validator's `alphanum`: ASCII letters and digits only. */
  predicate IsAlphanum(s: string) {
    forall i :: 0 <= i < |s| ==> ('a' <= s[i] <= 'z' || 'A' <= s[i] <= 'Z' || '0' <= s[i] <= '9')
  }

  /** The validator's `email`, reduced to its shape: one '@' between a non-empty local part and domain. */
  predicate IsEmail(s: string) {
    exists k :: 0 < k < |s| - 1 && s[k] == '@' && '@' !in s[..k] && '@' !in s[k + 1..]
  }

  datatype CreateUserRequest = CreateUserRequest(username: string, password: string, fullName: string, email: string) {
    /** required,alphanum; required,min=6; required; required,email. */
    predicate Valid() {
      && username != "" && IsAlphanum(username)
      && |password| >= 6
      && fullName != ""
      && IsEmail(email)
    }
  }

  datatype LoginRequest = LoginRequest(username: string, password: string) {
    /** required,alphanum; required,min=6. */
    predicate Valid() {
      username != "" && IsAlphanum(username) && |password| >= 6
    }
  }

  /**
   * createUser. `hashed` is what util.HashPassword returned (None for its
   * error); `fault` what the insert meets. A hashing failure writes 500
   * with the raw error and does not return: the user is inserted with an
   * empty hash and a 200 follows.
   */
  method CreateUser(server: Server, ctx: Context, req: Option<CreateUserRequest>, hashed: Option<string>, now: Time,
                    fault: Option<Db.DbError>)
    requires server.store.Valid() && !ctx.panicked
    modifies ctx, server.store
    ensures server.store.Valid() && !ctx.panicked
    ensures ctx.aborted == old(ctx.aborted) && ctx.keys == old(ctx.keys) && ctx.nextCalled == old(ctx.nextCalled)
    ensures req.None? || !req.value.Valid() ==>
      && ctx.writes == old(ctx.writes) + [Write(StatusBadRequest, ErrorBody(BindingFailed))]
      && ctx.calls == old(ctx.calls) && unchanged(server.store)
    ensures req.Some? && req.value.Valid() ==>
      var r := req.value;
      var hash := if hashed.Some? then hashed.value else "";
      var arg := Db.CreateUserParams(r.username, hash, r.fullName, r.email);
      var hashWrites := if hashed.None? then [Write(StatusInternalServerError, RawErrorBody(HashFailed))] else [];
      var stored := Db.User(r.username, hash, r.fullName, r.email, ZeroTime, now);
      && ctx.calls == old(ctx.calls) + [HashPasswordCall(r.password), CreateUserCall(arg)]
      && (fault.None? && r.username !in old(server.store.users) ==>
            && server.store.users == old(server.store.users)[r.username := stored]
            && ctx.writes == old(ctx.writes) + hashWrites + [Write(StatusOK, UserBody(ProjectUser(stored)))])
      && (fault.Some? || r.username in old(server.store.users) ==>
            && unchanged(server.store)
            && |ctx.writes| == |old(ctx.writes) + hashWrites| + 1
            && ctx.writes[..|old(ctx.writes) + hashWrites|] == old(ctx.writes) + hashWrites
            && ctx.writes[|ctx.writes| - 1].status == StatusInternalServerError)
    ensures server.store.accounts == old(server.store.accounts) && server.store.sessions == old(server.store.sessions)
  {
    if req.None? || !req.value.Valid() {
      ctx.JSON(StatusBadRequest, ErrorBody(BindingFailed));
      return;
    }
    var r := req.value;
    ctx.Record(HashPasswordCall(r.password));
    var hashedPassword := "";
    if hashed.None? {
      ctx.JSON(StatusInternalServerError, RawErrorBody(HashFailed));
    } else {
      hashedPassword := hashed.value;
    }
    ghost var hashWrites := ctx.writes;
    var arg := Db.CreateUserParams(r.username, hashedPassword, r.fullName, r.email);
    ctx.Record(CreateUserCall(arg));
    var user := server.store.CreateUser(arg, now, fault);
    if user.Err? {
      ctx.JSON(StatusInternalServerError, ErrorBody(DbFailed(user.error)));
      assert ctx.writes[..|hashWrites|] == hashWrites;
      return;
    }
    ctx.JSON(StatusOK, UserBody(ProjectUser(user.value)));
  }

  /** getUser: the row of the user the middleware authenticated, without its hash. */
  method GetUser(server: Server, ctx: Context, fault: Option<Db.DbError>)
    requires server.store.Valid() && !ctx.panicked
    modifies ctx
    ensures ctx.aborted == old(ctx.aborted) && ctx.keys == old(ctx.keys) && ctx.nextCalled == old(ctx.nextCalled)
    ensures AuthorizationPayloadKey !in ctx.keys ==>
      ctx.panicked && ctx.writes == old(ctx.writes) && ctx.calls == old(ctx.calls)
    ensures AuthorizationPayloadKey in ctx.keys ==>
      var username := ctx.keys[AuthorizationPayloadKey].username;
      var lookup := server.store.GetUser(username, fault);
      && !ctx.panicked
      && ctx.calls == old(ctx.calls) + [GetUserCall(username)]
      && (lookup.Err? ==>
            ctx.writes == old(ctx.writes) + [Write(LookupStatus(lookup.error), ErrorBody(DbFailed(lookup.error)))])
      && (lookup.Ok? ==>
            && lookup.value.username == username
            && ctx.writes == old(ctx.writes) + [Write(StatusOK, UserBody(ProjectUser(lookup.value)))])
  {
    var payload := ctx.MustGet(AuthorizationPayloadKey);
    if payload.None? {
      ctx.Panic();
      return;
    }
    ctx.Record(GetUserCall(payload.value.username));
    var user := server.store.GetUser(payload.value.username, fault);
    if user.Err? {
      ctx.JSON(LookupStatus(user.error), ErrorBody(DbFailed(user.error)));
      return;
    }
    ctx.JSON(StatusOK, UserBody(ProjectUser(user.value)));
  }

  /**
   * The session row loginUser asks for: keyed by the refresh payload's id,
   * unblocked, expiring with the refresh token. The request's user agent is
   * stored as the client address and the client address as the user agent.
   */
  function NewSessionParams(ctx: Context, username: string, refreshToken: string, refresh: Payload)
    : (r: Db.CreateSessionParams)
    ensures r.id == refresh.id && r.username == username && r.refreshToken == refreshToken
    ensures r.clientIp == ctx.userAgent && r.userAgent == ctx.clientIp
    ensures !r.isBlocked && r.expiresAt == refresh.expiredAt
  {
    Db.CreateSessionParams(refresh.id, username, refreshToken, ctx.clientIp, ctx.userAgent, false, refresh.expiredAt)
  }

  /** The 500 loginUser writes, without returning, when the session cannot be stored. */
  function SessionWrites(arg: Db.CreateSessionParams, sessions: map<Uuid, Db.Session>, fault: Option<Db.DbError>)
    : (r: seq<Write>)
    ensures r == [] <==> fault.None? && arg.id !in sessions
    ensures |r| <= 1 && forall i :: 0 <= i < |r| ==> r[i].status == StatusInternalServerError
  {
    if fault.Some? then [Write(StatusInternalServerError, ErrorBody(DbFailed(fault.value)))]
    else if arg.id in sessions then [Write(StatusInternalServerError, ErrorBody(DbFailed(Db.UniqueViolation)))]
    else []
  }

  /**
   * The end of loginUser once the refresh token is minted: the session is
   * stored (or a 500 written and the nil session id kept), then the
   * response is built, which panics when the access token was not minted.
   */
  method StoreSession(server: Server, ctx: Context, user: Db.User, username: string, now: Time,
                      access: Result<(string, Payload), TokenError>, refreshToken: string, refresh: Payload,
                      sessionFault: Option<Db.DbError>)
    requires server.store.Valid() && !ctx.panicked
    modifies ctx, server.store
    ensures server.store.Valid()
    ensures ctx.aborted == old(ctx.aborted) && ctx.keys == old(ctx.keys) && ctx.nextCalled == old(ctx.nextCalled)
    ensures server.store.accounts == old(server.store.accounts) && server.store.users == old(server.store.users)
    ensures
      var arg := NewSessionParams(ctx, username, refreshToken, refresh);
      var created := sessionFault.None? && arg.id !in old(server.store.sessions);
      var sessionWrites := SessionWrites(arg, old(server.store.sessions), sessionFault);
      && ctx.calls == old(ctx.calls) + [CreateSessionCall(arg)]
      && (created ==> server.store.sessions == old(server.store.sessions)[arg.id := Db.Session(
            arg.id, username, refreshToken, ctx.clientIp, ctx.userAgent, false, refresh.expiredAt, now)])
      && (!created ==> unchanged(server.store))
      && (access.Err? ==> ctx.panicked && ctx.writes == old(ctx.writes) + sessionWrites)
      && (access.Ok? ==>
            && !ctx.panicked
            && ctx.writes == old(ctx.writes) + sessionWrites + [Write(StatusOK, LoginBody(LoginResponse(
                 if created then refresh.id else NilUuid, access.value.0, access.value.1.expiredAt,
                 refreshToken, refresh.expiredAt, ProjectUser(user))))])
  {
    var arg := NewSessionParams(ctx, username, refreshToken, refresh);
    ctx.Record(CreateSessionCall(arg));
    var session := server.store.CreateSession(arg, now, sessionFault);
    var sessionId := NilUuid;
    if session.Err? {
      ctx.JSON(StatusInternalServerError, ErrorBody(DbFailed(session.error)));
    } else {
      sessionId := session.value.id;
    }
    if access.Err? {
      // accessPayload is nil: reading its ExpiredAt panics.
      ctx.Panic();
      return;
    }
    ctx.JSON(StatusOK, LoginBody(LoginResponse(sessionId, access.value.0, access.value.1.expiredAt,
                                              refreshToken, refresh.expiredAt, ProjectUser(user))));
  }

  /**
   * Every `ctx.JSON` call loginUser makes after the password check, given
   * the outcomes of the two mints and the sessions table the insert meets.
   * Each failed mint writes 500 and execution goes on; the session insert
   * is reached only with a refresh token. A 200 is written exactly when
   * both mints succeed, and then it is the last write.
   */
  function LoginWrites(ctx: Context, user: Db.User, username: string, access: Result<(string, Payload), TokenError>,
                       refresh: Result<(string, Payload), TokenError>, sessions: map<Uuid, Db.Session>,
                       sessionFault: Option<Db.DbError>): (r: seq<Write>)
    ensures access.Ok? && refresh.Ok? <==> |r| >= 1 && r[|r| - 1].status == StatusOK
    ensures access.Err? ==> |r| >= 1 && r[0] == Write(StatusInternalServerError, ErrorBody(TokenFailed(access.error)))
    ensures refresh.Err? ==> |r| >= 1 && r[|r| - 1] == Write(StatusInternalServerError, ErrorBody(TokenFailed(refresh.error)))
    ensures access.Ok? && refresh.Ok? ==>
      var created := sessionFault.None? && refresh.value.1.id !in sessions;
      && |r| == (if created then 1 else 2)
      && r[|r| - 1].body == LoginBody(LoginResponse(if created then refresh.value.1.id else NilUuid,
           access.value.0, access.value.1.expiredAt, refresh.value.0, refresh.value.1.expiredAt, ProjectUser(user)))
  {
    AccessWrites(access) + RefreshWrites(ctx, user, username, access, refresh, sessions, sessionFault)
  }

  /** The 500 written, without returning, when the access token is not minted. */
  function AccessWrites(access: Result<(string, Payload), TokenError>): seq<Write> {
    if access.Err? then [Write(StatusInternalServerError, ErrorBody(TokenFailed(access.error)))] else []
  }

  /** The writes of loginUser from the refresh token's mint on. */
  function RefreshWrites(ctx: Context, user: Db.User, username: string, access: Result<(string, Payload), TokenError>,
                         refresh: Result<(string, Payload), TokenError>, sessions: map<Uuid, Db.Session>,
                         sessionFault: Option<Db.DbError>): seq<Write>
  {
    if refresh.Err? then [Write(StatusInternalServerError, ErrorBody(TokenFailed(refresh.error)))]
    else
      var arg := NewSessionParams(ctx, username, refresh.value.0, refresh.value.1);
      SessionWrites(arg, sessions, sessionFault)
      + if access.Err? then []
        else [Write(StatusOK, LoginBody(LoginResponse(
                if sessionFault.None? && arg.id !in sessions then refresh.value.1.id else NilUuid,
                access.value.0, access.value.1.expiredAt, refresh.value.0, refresh.value.1.expiredAt, ProjectUser(user))))]
  }

  /**
   * The sessions table after loginUser: the refresh token's session is
   * added exactly when the refresh mint and the insert succeed, and no
   * stored session changes.
   */
  function LoginSessions(ctx: Context, username: string, refresh: Result<(string, Payload), TokenError>,
                         sessions: map<Uuid, Db.Session>, sessionFault: Option<Db.DbError>, now: Time)
    : (r: map<Uuid, Db.Session>)
    ensures r != sessions <==> refresh.Ok? && sessionFault.None? && refresh.value.1.id !in sessions
    ensures forall id :: id in sessions ==> id in r && r[id] == sessions[id]
    ensures r != sessions ==>
      var id := refresh.value.1.id;
      && r.Keys == sessions.Keys + {id}
      && r[id].username == username && r[id].refreshToken == refresh.value.0 && !r[id].isBlocked
      && r[id].expiresAt == refresh.value.1.expiredAt
  {
    if refresh.Err? then sessions
    else
      var arg := NewSessionParams(ctx, username, refresh.value.0, refresh.value.1);
      if sessionFault.Some? || arg.id in sessions then sessions
      else
        var added := sessions[arg.id := Db.Session(arg.id, username, refresh.value.0, ctx.clientIp, ctx.userAgent,
                                                   false, refresh.value.1.expiredAt, now)];
        assert arg.id in added.Keys - sessions.Keys;
        added
  }

  /** The one session LoginSessions adds is the refresh token's, as CreateSession stores it. */
  lemma LoginSessionsAdded(ctx: Context, username: string, refresh: Result<(string, Payload), TokenError>,
                           sessions: map<Uuid, Db.Session>, sessionFault: Option<Db.DbError>, now: Time)
    ensures LoginSessions(ctx, username, refresh, sessions, sessionFault, now) != sessions ==>
      && refresh.Ok? && refresh.value.1.id !in sessions
      && LoginSessions(ctx, username, refresh, sessions, sessionFault, now)
         == sessions[refresh.value.1.id := Db.Session(refresh.value.1.id, username, refresh.value.0, ctx.clientIp,
                                                      ctx.userAgent, false, refresh.value.1.expiredAt, now)]
  {
  }

  /** The calls loginUser makes after the password check: both mints, then the insert when there is a refresh token. */
  function LoginCalls(ctx: Context, username: string, refresh: Result<(string, Payload), TokenError>, config: Config)
    : (r: seq<Call>)
    ensures |r| == (if refresh.Ok? then 3 else 2)
    ensures r[..2] == [CreateTokenCall(username, config.accessTokenDuration), CreateTokenCall(username, config.refreshTokenDuration)]
    ensures refresh.Ok? ==> r[2] == CreateSessionCall(NewSessionParams(ctx, username, refresh.value.0, refresh.value.1))
  {
    [CreateTokenCall(username, config.accessTokenDuration), CreateTokenCall(username, config.refreshTokenDuration)]
    + SessionCalls(ctx, username, refresh)
  }

  /** The insert loginUser asks for once it holds a refresh token. */
  function SessionCalls(ctx: Context, username: string, refresh: Result<(string, Payload), TokenError>): seq<Call> {
    if refresh.Ok? then [CreateSessionCall(NewSessionParams(ctx, username, refresh.value.0, refresh.value.1))] else []
  }

  /** Joining the writes of the two halves of loginUser gives LoginWrites. */
  lemma LoginWritesJoin(before: seq<Write>, ctx: Context, user: Db.User, username: string,
                        access: Result<(string, Payload), TokenError>, refresh: Result<(string, Payload), TokenError>,
                        sessions: map<Uuid, Db.Session>, sessionFault: Option<Db.DbError>)
    ensures before + AccessWrites(access) + RefreshWrites(ctx, user, username, access, refresh, sessions, sessionFault)
            == before + LoginWrites(ctx, user, username, access, refresh, sessions, sessionFault)
  {
  }

  /** Joining the calls of the two halves of loginUser gives LoginCalls. */
  lemma LoginCallsJoin(before: seq<Call>, ctx: Context, username: string,
                       refresh: Result<(string, Payload), TokenError>, config: Config)
    ensures before + [CreateTokenCall(username, config.accessTokenDuration)]
            + [CreateTokenCall(username, config.refreshTokenDuration)] + SessionCalls(ctx, username, refresh)
            == before + LoginCalls(ctx, username, refresh, config)
  {
  }

  /**
   * What loginUser does once the refresh mint has returned: a failure
   * writes 500 and the nil payload panics before a session is built;
   * otherwise StoreSession.
   */
  method FinishLogin(server: Server, ctx: Context, user: Db.User, username: string, now: Time,
                     access: Result<(string, Payload), TokenError>, refresh: Result<(string, Payload), TokenError>,
                     sessionFault: Option<Db.DbError>)
    requires server.store.Valid() && !ctx.panicked
    modifies ctx, server.store
    ensures server.store.Valid()
    ensures ctx.aborted == old(ctx.aborted) && ctx.keys == old(ctx.keys) && ctx.nextCalled == old(ctx.nextCalled)
    ensures server.store.accounts == old(server.store.accounts) && server.store.users == old(server.store.users)
    ensures server.store.sessions == old(server.store.sessions) ==> unchanged(server.store)
    ensures ctx.writes == old(ctx.writes) + RefreshWrites(ctx, user, username, access, refresh, old(server.store.sessions), sessionFault)
    ensures server.store.sessions == LoginSessions(ctx, username, refresh, old(server.store.sessions), sessionFault, now)
    ensures ctx.calls == old(ctx.calls) + SessionCalls(ctx, username, refresh)
    ensures ctx.panicked <==> access.Err? || refresh.Err?
  {
    if refresh.Err? {
      ctx.JSON(StatusInternalServerError, ErrorBody(TokenFailed(refresh.error)));
      // refreshPayload is nil: reading its ID panics.
      ctx.Panic();
      return;
    }
    ghost var sessions := server.store.sessions;
    StoreSession(server, ctx, user, username, now, access, refresh.value.0, refresh.value.1, sessionFault);
    ghost var arg := NewSessionParams(ctx, username, refresh.value.0, refresh.value.1);
    if sessionFault.None? && arg.id !in sessions {
      assert LoginSessions(ctx, username, refresh, sessions, sessionFault, now) == sessions[arg.id := Db.Session(
        arg.id, username, refresh.value.0, ctx.clientIp, ctx.userAgent, false, refresh.value.1.expiredAt, now)];
    } else {
      assert LoginSessions(ctx, username, refresh, sessions, sessionFault, now) == sessions;
    }
  }

  /**
   * The part of loginUser after the password check: the access token, the
   * refresh token, then FinishLogin. A failure to mint writes 500 and does
   * not return; a missing refresh payload then panics when the session is
   * built, before anything is stored, and a missing access payload when
   * the response is.
   */
  method IssueTokens(server: Server, ctx: Context, user: Db.User, username: string, now: Time,
                     accessEnv: IssueEnv, refreshEnv: IssueEnv, sessionFault: Option<Db.DbError>)
    requires server.store.Valid() && !ctx.panicked
    modifies ctx, server.store
    ensures server.store.Valid()
    ensures ctx.aborted == old(ctx.aborted) && ctx.keys == old(ctx.keys) && ctx.nextCalled == old(ctx.nextCalled)
    ensures server.store.accounts == old(server.store.accounts) && server.store.users == old(server.store.users)
    ensures server.store.sessions == old(server.store.sessions) ==> unchanged(server.store)
    ensures
      var access := TokenMaker.CreateToken(server.maker, username, server.config.accessTokenDuration, accessEnv);
      var refresh := TokenMaker.CreateToken(server.maker, username, server.config.refreshTokenDuration, refreshEnv);
      && ctx.writes == old(ctx.writes) + LoginWrites(ctx, user, username, access, refresh, old(server.store.sessions), sessionFault)
      && server.store.sessions == LoginSessions(ctx, username, refresh, old(server.store.sessions), sessionFault, now)
      && ctx.calls == old(ctx.calls) + LoginCalls(ctx, username, refresh, server.config)
      && (ctx.panicked <==> access.Err? || refresh.Err?)
  {
    ctx.Record(CreateTokenCall(username, server.config.accessTokenDuration));
    var access := TokenMaker.CreateToken(server.maker, username, server.config.accessTokenDuration, accessEnv);
    if access.Err? {
      ctx.JSON(StatusInternalServerError, ErrorBody(TokenFailed(access.error)));
    }
    assert ctx.writes == old(ctx.writes) + AccessWrites(access);
    ctx.Record(CreateTokenCall(username, server.config.refreshTokenDuration));
    var refresh := TokenMaker.CreateToken(server.maker, username, server.config.refreshTokenDuration, refreshEnv);
    LoginWritesJoin(old(ctx.writes), ctx, user, username, access, refresh, old(server.store.sessions), sessionFault);
    LoginCallsJoin(old(ctx.calls), ctx, username, refresh, server.config);
    FinishLogin(server, ctx, user, username, now, access, refresh, sessionFault);
  }

  /**
   * loginUser. `lookupFault` is what reading the user meets and `matches`
   * is util.CheckPassword's verdict on (password, hash). A failed lookup or
   * a wrong password returns before any token is minted or session stored.
   */
  method LoginUser(server: Server, ctx: Context, req: Option<LoginRequest>, matches: (string, string) -> bool,
                   now: Time, lookupFault: Option<Db.DbError>, accessEnv: IssueEnv, refreshEnv: IssueEnv,
                   sessionFault: Option<Db.DbError>)
    requires server.store.Valid() && !ctx.panicked
    modifies ctx, server.store
    ensures server.store.Valid()
    ensures ctx.aborted == old(ctx.aborted) && ctx.keys == old(ctx.keys) && ctx.nextCalled == old(ctx.nextCalled)
    ensures server.store.accounts == old(server.store.accounts) && server.store.users == old(server.store.users)
    ensures req.None? || !req.value.Valid() ==>
      && ctx.writes == old(ctx.writes) + [Write(StatusBadRequest, ErrorBody(BindingFailed))]
      && ctx.calls == old(ctx.calls) && !ctx.panicked && unchanged(server.store)
    ensures req.Some? && req.value.Valid() && old(server.store.GetUser(req.value.username, lookupFault)).Err? ==>
      var e := old(server.store.GetUser(req.value.username, lookupFault)).error;
      && ctx.writes == old(ctx.writes) + [Write(LookupStatus(e), ErrorBody(DbFailed(e)))]
      && ctx.calls == old(ctx.calls) + [GetUserCall(req.value.username)] && !ctx.panicked && unchanged(server.store)
    ensures req.Some? && req.value.Valid() && old(server.store.GetUser(req.value.username, lookupFault)).Ok?
            && !matches(req.value.password, old(server.store.GetUser(req.value.username, lookupFault)).value.hashedPassword) ==>
      && ctx.writes == old(ctx.writes) + [Write(StatusForbidden, ErrorBody(PasswordMismatch))]
      && ctx.calls == old(ctx.calls) + [GetUserCall(req.value.username), CheckPasswordCall(req.value.password)]
      && !ctx.panicked && unchanged(server.store)
    ensures req.Some? && req.value.Valid() && old(server.store.GetUser(req.value.username, lookupFault)).Ok?
            && matches(req.value.password, old(server.store.GetUser(req.value.username, lookupFault)).value.hashedPassword) ==>
      var user := old(server.store.GetUser(req.value.username, lookupFault)).value;
      var access := TokenMaker.CreateToken(server.maker, req.value.username, server.config.accessTokenDuration, accessEnv);
      var refresh := TokenMaker.CreateToken(server.maker, req.value.username, server.config.refreshTokenDuration, refreshEnv);
      && ctx.writes == old(ctx.writes) + LoginWrites(ctx, user, req.value.username, access, refresh,
                                                     old(server.store.sessions), sessionFault)
      && server.store.sessions == LoginSessions(ctx, req.value.username, refresh, old(server.store.sessions), sessionFault, now)
      && ctx.calls == old(ctx.calls) + [GetUserCall(req.value.username), CheckPasswordCall(req.value.password)]
                      + LoginCalls(ctx, req.value.username, refresh, server.config)
      && (ctx.panicked <==> access.Err? || refresh.Err?)
    ensures server.store.sessions != old(server.store.sessions) ==>
      && req.Some? && req.value.Valid()
      && req.value.username in old(server.store.users)
      && matches(req.value.password, old(server.store.users)[req.value.username].hashedPassword)
      && var refresh := TokenMaker.CreateToken(server.maker, req.value.username, server.config.refreshTokenDuration, refreshEnv);
         && refresh.Ok? && refresh.value.1.id !in old(server.store.sessions)
         && server.store.sessions == old(server.store.sessions)[refresh.value.1.id := Db.Session(refresh.value.1.id,
              req.value.username, refresh.value.0, ctx.clientIp, ctx.userAgent, false, refresh.value.1.expiredAt, now)]
  {
    if req.None? || !req.value.Valid() {
      ctx.JSON(StatusBadRequest, ErrorBody(BindingFailed));
      return;
    }
    var r := req.value;
    ctx.Record(GetUserCall(r.username));
    var user := server.store.GetUser(r.username, lookupFault);
    if user.Err? {
      ctx.JSON(LookupStatus(user.error), ErrorBody(DbFailed(user.error)));
      return;
    }
    ctx.Record(CheckPasswordCall(r.password));
    if !matches(r.password, user.value.hashedPassword) {
      ctx.JSON(StatusForbidden, ErrorBody(PasswordMismatch));
      return;
    }
    assert ctx.calls == old(ctx.calls) + [GetUserCall(r.username), CheckPasswordCall(r.password)];
    ghost var refresh := TokenMaker.CreateToken(server.maker, r.username, server.config.refreshTokenDuration, refreshEnv);
    LoginSessionsAdded(ctx, r.username, refresh, server.store.sessions, sessionFault, now);
    IssueTokens(server, ctx, user.value, r.username, now, accessEnv, refreshEnv, sessionFault);
  }
}
