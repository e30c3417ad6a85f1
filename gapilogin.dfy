/**
 * gapi/rpc_login_user.go: the gRPC LoginUser call. Unlike the HTTP handler
 * every failure returns a status at once, so a session is stored only
 * when both tokens were minted, and a response is returned only when the
 * session was stored. gapi/converter.go is not part of this model: the
 * user projection of the HTTP handlers stands in for convertUser.
 */
module GapiLogin {
  import opened Common
  import opened TokenPayload
  import TokenMaker
  import Db
  import opened ApiServer
  import opened GapiMetadata

  /** The gRPC status codes LoginUser returns. */
  datatype Code = NotFound | Internal | PermissionDenied

  /** status.Errorf(code, ...): the code and the error it reports. */
  datatype RpcStatus = RpcStatus(code: Code, cause: ApiError)

  datatype LoginUserRequest = LoginUserRequest(username: string, password: string)

  /** The gRPC status for a failed user lookup. */
  function LookupCode(e: Db.DbError): (r: Code)
    ensures r == NotFound <==> e == Db.ErrNoRows
    ensures r != PermissionDenied
  {
    if e == Db.ErrNoRows then NotFound else Internal
  }

  /**
   * LoginUser. `incoming` is the call's context, `matches` util.CheckPassword's
   * verdict on (password, hash), and the remaining parameters what each
   * step meets. The stored session swaps the two metadata fields: the user
   * agent goes to client_ip and the client address to user_agent.
   */
  method LoginUser(server: Server, incoming: IncomingContext, req: LoginUserRequest, matches: (string, string) -> bool,
                   now: Time, lookupFault: Option<Db.DbError>, accessEnv: IssueEnv, refreshEnv: IssueEnv,
                   sessionFault: Option<Db.DbError>)
    returns (r: Result<LoginResponse, RpcStatus>)
    requires server.store.Valid()
    modifies server.store
    ensures server.store.Valid()
    ensures r.Err? ==> unchanged(server.store)
    ensures
      var lookup := old(server.store.GetUser(req.username, lookupFault));
      var access := TokenMaker.CreateToken(server.maker, req.username, server.config.accessTokenDuration, accessEnv);
      var refresh := TokenMaker.CreateToken(server.maker, req.username, server.config.refreshTokenDuration, refreshEnv);
      && (lookup.Err? ==> r == Err(RpcStatus(LookupCode(lookup.error), DbFailed(lookup.error))))
      && (lookup.Ok? && !matches(req.password, lookup.value.hashedPassword) ==>
            r == Err(RpcStatus(PermissionDenied, PasswordMismatch)))
      && (lookup.Ok? && matches(req.password, lookup.value.hashedPassword) && access.Err? ==>
            r == Err(RpcStatus(Internal, TokenFailed(access.error))))
      && (lookup.Ok? && matches(req.password, lookup.value.hashedPassword) && access.Ok? && refresh.Err? ==>
            r == Err(RpcStatus(Internal, TokenFailed(refresh.error))))
      && (lookup.Ok? && matches(req.password, lookup.value.hashedPassword) && access.Ok? && refresh.Ok? ==>
            && (r.Ok? <==> sessionFault.None? && refresh.value.1.id !in old(server.store.sessions))
            && (r.Err? ==> r.error == RpcStatus(Internal, DbFailed(
                  if sessionFault.Some? then sessionFault.value else Db.UniqueViolation))))
    ensures r.Ok? ==>
      var user := old(server.store.users)[req.username];
      var access := TokenMaker.CreateToken(server.maker, req.username, server.config.accessTokenDuration, accessEnv);
      var refresh := TokenMaker.CreateToken(server.maker, req.username, server.config.refreshTokenDuration, refreshEnv);
      var md := Reported(incoming);
      && lookupFault.None? && req.username in old(server.store.users)
      && matches(req.password, user.hashedPassword)
      && access.Ok? && refresh.Ok? && sessionFault.None?
      && refresh.value.1.id !in old(server.store.sessions)
      && server.store.sessions == old(server.store.sessions)[refresh.value.1.id := Db.Session(
           refresh.value.1.id, req.username, refresh.value.0, md.clientIp, md.userAgent, false,
           refresh.value.1.expiredAt, now)]
      && r.value == LoginResponse(refresh.value.1.id, access.value.0, access.value.1.expiredAt,
                                  refresh.value.0, refresh.value.1.expiredAt, ProjectUser(user))
    ensures server.store.accounts == old(server.store.accounts) && server.store.users == old(server.store.users)
  {
    var user := server.store.GetUser(req.username, lookupFault);
    if user.Err? {
      return Err(RpcStatus(LookupCode(user.error), DbFailed(user.error)));
    }
    if !matches(req.password, user.value.hashedPassword) {
      return Err(RpcStatus(PermissionDenied, PasswordMismatch));
    }
    var access := TokenMaker.CreateToken(server.maker, req.username, server.config.accessTokenDuration, accessEnv);
    if access.Err? {
      return Err(RpcStatus(Internal, TokenFailed(access.error)));
    }
    var refresh := TokenMaker.CreateToken(server.maker, req.username, server.config.refreshTokenDuration, refreshEnv);
    if refresh.Err? {
      return Err(RpcStatus(Internal, TokenFailed(refresh.error)));
    }
    var metaData := ExtractMetaData(incoming);
    var arg := Db.CreateSessionParams(refresh.value.1.id, req.username, refresh.value.0,
                                      metaData.clientIp, metaData.userAgent, false, refresh.value.1.expiredAt);
    var session := server.store.CreateSession(arg, now, sessionFault);
    if session.Err? {
      return Err(RpcStatus(Internal, DbFailed(session.error)));
    }
    return Ok(LoginResponse(session.value.id, access.value.0, access.value.1.expiredAt,
                            refresh.value.0, refresh.value.1.expiredAt, ProjectUser(user.value)));
  }
}
