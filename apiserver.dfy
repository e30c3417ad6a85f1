/**
 * What the HTTP handlers share (api/server.go): the server value, the gin
 * request context they write to, the bodies they write and the errors those
 * bodies carry. Each handler is a method over a Context; what a handler
 * asked of the store or the token maker is kept in a ghost log of calls.
 */
module ApiServer {
  import opened Common
  import opened TokenPayload
  import opened Ledger
  import Db
  import TokenMaker
  import Paseto

  const StatusOK: int := 200
  const StatusBadRequest: int := 400
  const StatusUnauthorized: int := 401
  const StatusForbidden: int := 403
  const StatusNotFound: int := 404
  const StatusInternalServerError: int := 500

  /** The part of util.Config the handlers read; the key is the bytes of the configured string. */
  datatype Config = Config(tokenSymmetricKey: seq<byte>, accessTokenDuration: Duration, refreshTokenDuration: Duration)

  /** The server: its fields are set once by NewServer and never reassigned. */
  datatype Server = Server(store: Db.Store, maker: TokenMaker.Maker, config: Config)

  /**
   * NewServer (and gapi.NewServer, which builds its server the same way):
   * the maker is always the authenticated-encryption one, under the
   * configured key, and a key of the wrong size is a construction error.
   */
  function NewServer(store: Db.Store, config: Config): (r: Result<Server, string>)
    ensures r.Ok? <==> |config.tokenSymmetricKey| == Paseto.KeySize
    ensures r.Ok? ==> r.value.maker == TokenMaker.PasetoMaker(Paseto.PasetoMaker(config.tokenSymmetricKey))
    ensures r.Ok? ==> r.value.store == store && r.value.config == config
  {
    match Paseto.NewPasetoMaker(config.tokenSymmetricKey)
    case Err(e) => Err("could not create a new token interface, " + e)
    case Ok(m) => Ok(Server(store, TokenMaker.PasetoMaker(m), config))
  }

  /** The error a response body reports. */
  datatype ApiError =
    | BindingFailed              // ShouldBind*: a missing, malformed or out-of-range field
    | TokenFailed(token: TokenError)
    | DbFailed(db: Db.DbError)
    | TxFailed(tx: Db.TxError)
    | PasswordMismatch           // util.CheckPassword
    | HashFailed                 // util.HashPassword
    | Message(text: string)      // an error built with errors.New or fmt.Errorf

  /** The user as the responses show it: every column but the hashed password. */
  datatype UserResponse = UserResponse(
    username: string, fullName: string, email: string, passwordChangedAt: Time, createdAt: Time)

  /** The projection createUser, getUser and loginUser apply to a user row. */
  function ProjectUser(u: Db.User): (r: UserResponse)
    ensures r.username == u.username && r.fullName == u.fullName && r.email == u.email
    ensures r.passwordChangedAt == u.passwordChangedAt && r.createdAt == u.createdAt
  {
    UserResponse(u.username, u.fullName, u.email, u.passwordChangedAt, u.createdAt)
  }

  /** The response never depends on the hashed password: rows differing only there look the same. */
  lemma ProjectionHidesPassword(u: Db.User, hashed: string)
    ensures ProjectUser(u.(hashedPassword := hashed)) == ProjectUser(u)
  {
  }

  datatype LoginResponse = LoginResponse(
    sessionId: Uuid, accessToken: string, accessTokenExpiresAt: Time,
    refreshToken: string, refreshTokenExpiresAt: Time, user: UserResponse)

  datatype RenewResponse = RenewResponse(accessToken: string, accessTokenExpiresAt: Time)

  /** A JSON body written by a handler. */
  datatype Body =
    | ErrorBody(err: ApiError)          // errorResponse(err): {"error": err.Error()}
    | RawErrorBody(err: ApiError)       // the error value marshalled as it is
    | AccountBody(account: Account)
    | AccountsBody(accounts: seq<Account>)
    | UserBody(user: UserResponse)
    | LoginBody(login: LoginResponse)
    | RenewBody(renew: RenewResponse)
    | TransferBody(result: TransferTxResults)

  /** One call of ctx.JSON or ctx.AbortWithStatusJSON. */
  datatype Write = Write(status: int, body: Body)

  /** What a handler asked of the token maker, the store or the password helpers. */
  datatype Call =
    | VerifyTokenCall(token: string)
    | CreateTokenCall(username: string, duration: Duration)
    | GetSessionCall(sessionId: Uuid)
    | GetUserCall(username: string)
    | GetAccountCall(accountId: int)
    | ListAccountsCall(listArg: Db.ListAccountsParams)
    | CheckPasswordCall(password: string)
    | HashPasswordCall(password: string)
    | CreateUserCall(userArg: Db.CreateUserParams)
    | CreateAccountCall(accountArg: Db.CreateAccountParams)
    | CreateSessionCall(sessionArg: Db.CreateSessionParams)
    | TransferTxCall(transferArg: TransferTxParams)

  /** The status a handler writes when a lookup fails: 404 for no row, 500 for any other error. */
  function LookupStatus(e: Db.DbError): int {
    if e == Db.ErrNoRows then StatusNotFound else StatusInternalServerError
  }

  /** The key under which the middleware stores the verified payload. */
  const AuthorizationPayloadKey: string := "auth_payload"

  /**
   * gin.Context for one request: the request's header and peer, and what the
   * handlers do to the context. A Go panic is recorded in `panicked`; the
   * handler stops there (gin's recovery middleware is not part of this model).
   */
  class Context {
    /** The `authorization` request header ("" when absent). */
    const authorization: string
    /** ctx.Request.UserAgent() */
    const userAgent: string
    /** ctx.ClientIP() */
    const clientIp: string

    var writes: seq<Write>
    var aborted: bool
    var keys: map<string, Payload>
    var nextCalled: bool
    var panicked: bool
    ghost var calls: seq<Call>

    constructor (authorization: string, userAgent: string, clientIp: string)
      ensures this.authorization == authorization && this.userAgent == userAgent && this.clientIp == clientIp
      ensures writes == [] && !aborted && keys == map[] && !nextCalled && !panicked && calls == []
    {
      this.authorization := authorization;
      this.userAgent := userAgent;
      this.clientIp := clientIp;
      writes := [];
      aborted := false;
      keys := map[];
      nextCalled := false;
      panicked := false;
      calls := [];
    }

    /** ctx.JSON: one more write; the chain is not stopped. */
    method JSON(status: int, body: Body)
      modifies this
      ensures writes == old(writes) + [Write(status, body)]
      ensures aborted == old(aborted) && keys == old(keys) && nextCalled == old(nextCalled)
      ensures panicked == old(panicked) && calls == old(calls)
    {
      writes := writes + [Write(status, body)];
    }

    /** ctx.AbortWithStatusJSON: one more write, and the rest of the chain is skipped. */
    method AbortWithStatusJSON(status: int, body: Body)
      modifies this
      ensures writes == old(writes) + [Write(status, body)] && aborted
      ensures keys == old(keys) && nextCalled == old(nextCalled)
      ensures panicked == old(panicked) && calls == old(calls)
    {
      writes := writes + [Write(status, body)];
      aborted := true;
    }

    /** ctx.Set */
    method Set(key: string, value: Payload)
      modifies this
      ensures keys == old(keys)[key := value]
      ensures writes == old(writes) && aborted == old(aborted) && nextCalled == old(nextCalled)
      ensures panicked == old(panicked) && calls == old(calls)
    {
      keys := keys[key := value];
    }

    /** ctx.MustGet: the value under the key, or None where gin panics. */
    function MustGet(key: string): (r: Option<Payload>)
      reads this
      ensures r.Some? <==> key in keys
      ensures r.Some? ==> r.value == keys[key]
    {
      if key in keys then Some(keys[key]) else None
    }

    /** ctx.Next: the rest of the chain runs (what it does is not part of this model). */
    method Next()
      modifies this
      ensures nextCalled
      ensures writes == old(writes) && aborted == old(aborted) && keys == old(keys)
      ensures panicked == old(panicked) && calls == old(calls)
    {
      nextCalled := true;
    }

    /** A Go runtime panic inside the handler (a nil dereference, an index out of range). */
    method Panic()
      modifies this
      ensures panicked
      ensures writes == old(writes) && aborted == old(aborted) && keys == old(keys)
      ensures nextCalled == old(nextCalled) && calls == old(calls)
    {
      panicked := true;
    }

    /** Logs a call to the maker, the store or the password helpers. */
    ghost method Record(c: Call)
      modifies this
      ensures calls == old(calls) + [c]
      ensures writes == old(writes) && aborted == old(aborted) && keys == old(keys)
      ensures nextCalled == old(nextCalled) && panicked == old(panicked)
    {
      calls := calls + [c];
    }
  }
}
