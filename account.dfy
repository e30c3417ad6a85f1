/**
 * api/account.go: creating an account for the authenticated user, reading
 * one account, and listing the user's accounts a page at a time. The page
 * offset is computed in 32-bit arithmetic, as the request's fields are
 * int32.
 */
module ApiAccount {
  import opened Common
  import opened TokenPayload
  import opened Ledger
  import Db
  import opened ApiServer

  const MinInt32: int := -0x8000_0000
  const MaxInt32: int := 0x7fff_ffff

  predicate IsInt32(x: int) {
    MinInt32 <= x <= MaxInt32
  }

  /** Two's-complement wrap-around of an int32 result. */
  function Wrap32(x: int): (r: int)
    ensures IsInt32(r)
    ensures (x - r) % 0x1_0000_0000 == 0
    ensures IsInt32(x) ==> r == x
  {
    (x - MinInt32) % 0x1_0000_0000 + MinInt32
  }

  datatype CreateAccountRequest = CreateAccountRequest(currency: string) {
    /** required,oneof=USD EUR */
    predicate Valid() {
      currency in {"USD", "EUR"}
    }
  }

  datatype GetAccountRequest = GetAccountRequest(id: int) {
    /** int64, required,min=1 */
    predicate Valid() {
      IsInt64(id) && id >= 1
    }
  }

  datatype ListAccountRequest = ListAccountRequest(pageId: int, pageSize: int) {
    /** int32 fields; page_id required,min=1; page_size required,min=5,max=10. */
    predicate Valid() {
      IsInt32(pageId) && IsInt32(pageSize) && pageId >= 1 && 5 <= pageSize <= 10
    }
  }

  /** The status createAccount writes for an insert error: 403 for the two constraint violations. */
  function CreateStatus(e: Db.DbError): (r: int)
    ensures r == StatusForbidden <==> e == Db.ForeignKeyViolation || e == Db.UniqueViolation
    ensures r == StatusForbidden || r == StatusInternalServerError
  {
    if e == Db.ForeignKeyViolation || e == Db.UniqueViolation then StatusForbidden else StatusInternalServerError
  }

  /** (PageID - 1) * PageSize, evaluated in int32. */
  function ListOffset(pageId: int, pageSize: int): (r: int)
    ensures IsInt32(r)
    ensures IsInt32(pageId - 1) && IsInt32((pageId - 1) * pageSize) ==> r == (pageId - 1) * pageSize
  {
    var prev := Wrap32(pageId - 1);
    Wrap32(prev * pageSize)
  }

  /** The first page starts at the first row. */
  lemma FirstPageAtStart(pageSize: int)
    requires IsInt32(pageSize)
    ensures ListOffset(1, pageSize) == 0
  {
  }

  /**
   * Without overflow, page p of size s starts (p - 1) * s rows in: a
   * non-negative multiple of the page size, and consecutive pages abut.
   */
  lemma {:induction false} PagesAbut(pageId: int, pageSize: int)
    requires ListAccountRequest(pageId, pageSize).Valid() && IsInt32(pageId * pageSize)
    ensures ListOffset(pageId, pageSize) >= 0 && ListOffset(pageId, pageSize) % pageSize == 0
    ensures ListOffset(pageId + 1, pageSize) == ListOffset(pageId, pageSize) + pageSize
  {
    assert 0 <= (pageId - 1) * pageSize <= pageId * pageSize;
    assert ((pageId + 1) - 1) * pageSize == pageId * pageSize;
  }

  /**
   * A page id the binding accepts can make the int32 offset negative: page
   * 214748366 of size 10 is 2147483650 rows in, which wraps below zero, so
   * the listing query refuses it.
   */
  lemma LargePageWraps()
    ensures ListAccountRequest(214748366, 10).Valid()
    ensures ListOffset(214748366, 10) == -2147483646
  {
    assert Wrap32(214748365 * 10) == -2147483646;
  }

  /**
   * createAccount: a zero-balance account in the requested currency, owned
   * by the authenticated user. A missing payload panics after binding.
   */
  method CreateAccount(server: Server, ctx: Context, req: Option<CreateAccountRequest>, now: Time,
                       fault: Option<Db.DbError>)
    requires server.store.Valid() && !ctx.panicked
    modifies ctx, server.store
    ensures server.store.Valid()
    ensures ctx.aborted == old(ctx.aborted) && ctx.keys == old(ctx.keys) && ctx.nextCalled == old(ctx.nextCalled)
    ensures req.None? || !req.value.Valid() ==>
      && ctx.writes == old(ctx.writes) + [Write(StatusBadRequest, ErrorBody(BindingFailed))]
      && ctx.calls == old(ctx.calls) && !ctx.panicked && unchanged(server.store)
    ensures req.Some? && req.value.Valid() && AuthorizationPayloadKey !in ctx.keys ==>
      ctx.panicked && ctx.writes == old(ctx.writes) && ctx.calls == old(ctx.calls) && unchanged(server.store)
    ensures req.Some? && req.value.Valid() && AuthorizationPayloadKey in ctx.keys ==>
      var arg := Db.CreateAccountParams(ctx.keys[AuthorizationPayloadKey].username, 0, req.value.currency);
      var account := Account(old(server.store.nextAccountId), arg.owner, 0, arg.currency, now);
      && !ctx.panicked
      && ctx.calls == old(ctx.calls) + [CreateAccountCall(arg)]
      && (fault.Some? ==>
            && ctx.writes == old(ctx.writes) + [Write(CreateStatus(fault.value), ErrorBody(DbFailed(fault.value)))]
            && unchanged(server.store))
      && (fault.None? ==>
            && ctx.writes == old(ctx.writes) + [Write(StatusOK, AccountBody(account))]
            && server.store.accounts == old(server.store.accounts)[account.id := account]
            && account.id !in old(server.store.accounts))
    ensures Total(server.store.accounts) == Total(old(server.store.accounts))
  {
    if req.None? || !req.value.Valid() {
      ctx.JSON(StatusBadRequest, ErrorBody(BindingFailed));
      return;
    }
    var payload := ctx.MustGet(AuthorizationPayloadKey);
    if payload.None? {
      ctx.Panic();
      return;
    }
    var arg := Db.CreateAccountParams(payload.value.username, 0, req.value.currency);
    ctx.Record(CreateAccountCall(arg));
    ghost var accounts0 := server.store.accounts;
    var account := server.store.CreateAccount(arg, now, fault);
    if account.Err? {
      ctx.JSON(CreateStatus(account.error), ErrorBody(DbFailed(account.error)));
      return;
    }
    TotalOpen(accounts0, account.value);
    ctx.JSON(StatusOK, AccountBody(account.value));
  }

  /** Opening an account with a zero balance leaves the money in the bank unchanged. */
  lemma TotalOpen(accounts: Accounts, a: Account)
    requires a.id !in accounts && a.balance == 0
    ensures Total(accounts[a.id := a]) == Total(accounts)
  {
    var grown := accounts[a.id := a];
    TotalRemove(grown, a.id);
    assert grown - {a.id} == accounts;
  }

  /**
   * getAccount: the account, once it is found. The owner check passes a nil
   * error to errorResponse, whose err.Error() panics, so an account of
   * another user is never written: the handler panics instead of
   * answering 401.
   */
  method GetAccount(server: Server, ctx: Context, req: Option<GetAccountRequest>, fault: Option<Db.DbError>)
    requires !ctx.panicked
    modifies ctx
    ensures ctx.aborted == old(ctx.aborted) && ctx.keys == old(ctx.keys) && ctx.nextCalled == old(ctx.nextCalled)
    ensures req.None? || !req.value.Valid() ==>
      && ctx.writes == old(ctx.writes) + [Write(StatusBadRequest, ErrorBody(BindingFailed))]
      && ctx.calls == old(ctx.calls) && !ctx.panicked
    ensures req.Some? && req.value.Valid() ==>
      var lookup := server.store.GetAccount(req.value.id, fault);
      && ctx.calls == old(ctx.calls) + [GetAccountCall(req.value.id)]
      && (lookup.Err? ==>
            ctx.writes == old(ctx.writes) + [Write(LookupStatus(lookup.error), ErrorBody(DbFailed(lookup.error)))]
            && !ctx.panicked)
      && (lookup.Ok? && (AuthorizationPayloadKey !in ctx.keys
                         || ctx.keys[AuthorizationPayloadKey].username != lookup.value.owner) ==>
            ctx.panicked && ctx.writes == old(ctx.writes))
      && (lookup.Ok? && AuthorizationPayloadKey in ctx.keys
          && ctx.keys[AuthorizationPayloadKey].username == lookup.value.owner ==>
            ctx.writes == old(ctx.writes) + [Write(StatusOK, AccountBody(lookup.value))] && !ctx.panicked)
    ensures |ctx.writes| > |old(ctx.writes)| && ctx.writes[|ctx.writes| - 1].body.AccountBody? ==>
      AuthorizationPayloadKey in ctx.keys
      && ctx.writes[|ctx.writes| - 1].body.account.owner == ctx.keys[AuthorizationPayloadKey].username
  {
    if req.None? || !req.value.Valid() {
      ctx.JSON(StatusBadRequest, ErrorBody(BindingFailed));
      return;
    }
    ctx.Record(GetAccountCall(req.value.id));
    var account := server.store.GetAccount(req.value.id, fault);
    if account.Err? {
      ctx.JSON(LookupStatus(account.error), ErrorBody(DbFailed(account.error)));
      return;
    }
    var payload := ctx.MustGet(AuthorizationPayloadKey);
    if payload.None? {
      ctx.Panic();
      return;
    }
    if payload.value.username != account.value.owner {
      // errorResponse(nil): calling Error() on a nil error panics.
      ctx.Panic();
      return;
    }
    ctx.JSON(StatusOK, AccountBody(account.value));
  }

  /**
   * listAccount: one page of the authenticated user's accounts, in id
   * order. A negative offset (after int32 wrap-around) fails in the query
   * and is answered with 500.
   */
  method ListAccount(server: Server, ctx: Context, req: Option<ListAccountRequest>, fault: Option<Db.DbError>)
    requires server.store.Valid() && !ctx.panicked
    modifies ctx
    ensures ctx.aborted == old(ctx.aborted) && ctx.keys == old(ctx.keys) && ctx.nextCalled == old(ctx.nextCalled)
    ensures req.None? || !req.value.Valid() ==>
      && ctx.writes == old(ctx.writes) + [Write(StatusBadRequest, ErrorBody(BindingFailed))]
      && ctx.calls == old(ctx.calls) && !ctx.panicked
    ensures req.Some? && req.value.Valid() && AuthorizationPayloadKey !in ctx.keys ==>
      ctx.panicked && ctx.writes == old(ctx.writes) && ctx.calls == old(ctx.calls)
    ensures req.Some? && req.value.Valid() && AuthorizationPayloadKey in ctx.keys ==>
      var owner := ctx.keys[AuthorizationPayloadKey].username;
      var arg := Db.ListAccountsParams(owner, req.value.pageSize, ListOffset(req.value.pageId, req.value.pageSize));
      && !ctx.panicked
      && ctx.calls == old(ctx.calls) + [ListAccountsCall(arg)]
      && |ctx.writes| == |old(ctx.writes)| + 1 && ctx.writes[..|old(ctx.writes)|] == old(ctx.writes)
      && (ctx.writes[|old(ctx.writes)|].status == StatusOK <==> fault.None? && arg.offset >= 0)
      && (ctx.writes[|old(ctx.writes)|].status == StatusOK ==>
            var page := ctx.writes[|old(ctx.writes)|].body;
            && page.AccountsBody?
            && |page.accounts| <= req.value.pageSize
            && (forall i :: 0 <= i < |page.accounts| ==>
                  page.accounts[i].owner == owner && page.accounts[i].id in server.store.accounts)
            && (forall i, j :: 0 <= i < j < |page.accounts| ==> page.accounts[i].id < page.accounts[j].id)
            && page.accounts == Db.Page(Db.OwnedBelow(server.store.accounts, owner, server.store.nextAccountId),
                                        arg.offset, req.value.pageSize))
  {
    if req.None? || !req.value.Valid() {
      ctx.JSON(StatusBadRequest, ErrorBody(BindingFailed));
      return;
    }
    var payload := ctx.MustGet(AuthorizationPayloadKey);
    if payload.None? {
      ctx.Panic();
      return;
    }
    var arg := Db.ListAccountsParams(payload.value.username, req.value.pageSize,
                                     ListOffset(req.value.pageId, req.value.pageSize));
    ctx.Record(ListAccountsCall(arg));
    var accounts := server.store.ListAccounts(arg, fault);
    if accounts.Err? {
      ctx.JSON(StatusInternalServerError, ErrorBody(DbFailed(accounts.error)));
      return;
    }
    ctx.JSON(StatusOK, AccountsBody(accounts.value));
  }
}
