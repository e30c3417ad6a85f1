/**
 * api/transfer.go: the transfer handler. Both accounts must exist and hold
 * the requested currency, and the source account must belong to the user
 * the middleware authenticated; only then does the store run TransferTx.
 */
module ApiTransfer {
  import opened Common
  import opened TokenPayload
  import opened Ledger
  import Db
  import opened ApiServer

  const CurrencyMessage: string := "currency on account does not match the specificed currency"
  const OwnerMessage: string := "account does not belong to logged in user"

  /** transferRequest, with the 64-bit width of its integer fields. */
  datatype TransferRequest = TransferRequest(fromAccountId: int, toAccountId: int, amount: int, currency: string) {
    /** The binding tags: required,min=1 on both ids, required,gt=0 on the amount, oneof=USD EUR CAD. */
    predicate Valid() {
      && IsInt64(fromAccountId) && IsInt64(toAccountId) && IsInt64(amount)
      && fromAccountId >= 1 && toAccountId >= 1 && amount > 0
      && currency in {"USD", "EUR", "CAD"}
    }
  }

  /** The status validateAccount writes when the lookup fails: 400 for no row, 500 otherwise. */
  function ValidateStatus(e: Db.DbError): (r: int)
    ensures r == StatusBadRequest <==> e == Db.ErrNoRows
    ensures r == StatusBadRequest || r == StatusInternalServerError
  {
    if e == Db.ErrNoRows then StatusBadRequest else StatusInternalServerError
  }

  /** The status transfer writes when TransferTx fails: 404 only for the bare no-row error. */
  function TxStatus(e: Db.TxError): (r: int)
    ensures r == StatusNotFound <==> e == Db.Failed(Db.ErrNoRows)
    ensures r == StatusNotFound || r == StatusInternalServerError
  {
    if e == Db.Failed(Db.ErrNoRows) then StatusNotFound else StatusInternalServerError
  }

  /**
   * validateAccount: the account, and true, when it exists and holds
   * `currency`; otherwise one error write and false.
   */
  method ValidateAccount(store: Db.Store, ctx: Context, accountId: int, currency: string, fault: Option<Db.DbError>)
    returns (account: Account, valid: bool)
    modifies ctx
    ensures ctx.aborted == old(ctx.aborted) && ctx.keys == old(ctx.keys) && ctx.nextCalled == old(ctx.nextCalled)
    ensures ctx.panicked == old(ctx.panicked)
    ensures ctx.calls == old(ctx.calls) + [GetAccountCall(accountId)]
    ensures var lookup := store.GetAccount(accountId, fault);
      && (valid <==> lookup.Ok? && lookup.value.currency == currency)
      && (valid ==> account == lookup.value && ctx.writes == old(ctx.writes))
      && (lookup.Err? ==> ctx.writes == old(ctx.writes) + [Write(ValidateStatus(lookup.error), ErrorBody(DbFailed(lookup.error)))])
      && (lookup.Ok? && !valid ==> ctx.writes == old(ctx.writes) + [Write(StatusBadRequest, ErrorBody(Message(CurrencyMessage)))])
  {
    ctx.Record(GetAccountCall(accountId));
    var got := store.GetAccount(accountId, fault);
    if got.Err? {
      ctx.JSON(ValidateStatus(got.error), ErrorBody(DbFailed(got.error)));
      return ZeroAccount, false;
    }
    account := got.value;
    if account.currency != currency {
      ctx.JSON(StatusBadRequest, ErrorBody(Message(CurrencyMessage)));
      return account, false;
    }
    return account, true;
  }

  /** Both accounts found in `accounts`, in the currency asked for, and the source owned by `username`. */
  predicate Authorized(accounts: Accounts, req: TransferRequest, username: string) {
    && req.fromAccountId in accounts && req.toAccountId in accounts
    && accounts[req.fromAccountId].currency == req.currency
    && accounts[req.toAccountId].currency == req.currency
    && accounts[req.fromAccountId].owner == username
  }

  /**
   * transfer. `req` is None when the body does not bind; `fromFault` and
   * `toFault` are what the two account lookups meet, `f` what the
   * transaction meets. No balance changes unless the request binds, both
   * accounts hold its currency, the source belongs to the authenticated
   * user and the transaction commits; then the balances are those of the
   * transfer applied to the table.
   */
  method Transfer(server: Server, ctx: Context, req: Option<TransferRequest>, now: Time,
                  fromFault: Option<Db.DbError>, toFault: Option<Db.DbError>, f: Db.TxFaults)
    requires server.store.Valid() && !ctx.panicked
    modifies ctx, server.store
    ensures server.store.Valid()
    ensures ctx.aborted == old(ctx.aborted) && ctx.keys == old(ctx.keys) && ctx.nextCalled == old(ctx.nextCalled)
    ensures server.store.accounts != old(server.store.accounts) ==>
      && req.Some? && req.value.Valid()
      && AuthorizationPayloadKey in old(ctx.keys)
      && Authorized(old(server.store.accounts), req.value, old(ctx.keys)[AuthorizationPayloadKey].username)
      && server.store.accounts == AfterTransfer(old(server.store.accounts),
           TransferTxParams(req.value.fromAccountId, req.value.toAccountId, req.value.amount))
    ensures req.None? || !req.value.Valid() ==>
      && ctx.writes == old(ctx.writes) + [Write(StatusBadRequest, ErrorBody(BindingFailed))]
      && ctx.calls == old(ctx.calls) && !ctx.panicked && unchanged(server.store)
    ensures req.Some? && req.value.Valid() ==>
      var r := req.value;
      var from := old(server.store.GetAccount(r.fromAccountId, fromFault));
      var to := old(server.store.GetAccount(r.toAccountId, toFault));
      var fromOk := from.Ok? && from.value.currency == r.currency;
      var toOk := to.Ok? && to.value.currency == r.currency;
      && (!fromOk ==>
            && |ctx.writes| == |old(ctx.writes)| + 1 && ctx.writes[|old(ctx.writes)|].status != StatusOK
            && ctx.calls == old(ctx.calls) + [GetAccountCall(r.fromAccountId)]
            && !ctx.panicked && unchanged(server.store))
      && (fromOk && !toOk ==>
            && |ctx.writes| == |old(ctx.writes)| + 1 && ctx.writes[|old(ctx.writes)|].status != StatusOK
            && ctx.calls == old(ctx.calls) + [GetAccountCall(r.fromAccountId), GetAccountCall(r.toAccountId)]
            && !ctx.panicked && unchanged(server.store))
      && (fromOk && toOk && AuthorizationPayloadKey !in old(ctx.keys) ==>
            ctx.panicked && ctx.writes == old(ctx.writes) && unchanged(server.store))
      && (fromOk && toOk && AuthorizationPayloadKey in old(ctx.keys)
          && from.value.owner != old(ctx.keys)[AuthorizationPayloadKey].username ==>
            && ctx.writes == old(ctx.writes) + [Write(StatusForbidden, ErrorBody(Message(OwnerMessage)))]
            && !ctx.panicked && unchanged(server.store))
    ensures (&& req.Some? && req.value.Valid() && AuthorizationPayloadKey in old(ctx.keys)
             && Authorized(old(server.store.accounts), req.value, old(ctx.keys)[AuthorizationPayloadKey].username)
             && fromFault.None? && toFault.None?) ==>
      var arg := TransferTxParams(req.value.fromAccountId, req.value.toAccountId, req.value.amount);
      && ctx.calls == old(ctx.calls) + [GetAccountCall(arg.fromAccountId), GetAccountCall(arg.toAccountId), TransferTxCall(arg)]
      && !ctx.panicked
      && |ctx.writes| == |old(ctx.writes)| + 1
      && (ctx.writes[|old(ctx.writes)|].status == StatusOK <==>
            f.begin.None? && Db.TransferError(old(server.store.accounts), arg, f).None? && f.commit.None?)
      && (ctx.writes[|old(ctx.writes)|].status == StatusOK ==>
            && ctx.writes[|old(ctx.writes)|].body.TransferBody?
            && server.store.Applied(old(server.store.accounts), old(server.store.entries), old(server.store.transfers),
                 old(server.store.updates), arg, now, ctx.writes[|old(ctx.writes)|].body.result))
  {
    if req.None? || !req.value.Valid() {
      ctx.JSON(StatusBadRequest, ErrorBody(BindingFailed));
      return;
    }
    var r := req.value;
    var account, valid := ValidateAccount(server.store, ctx, r.fromAccountId, r.currency, fromFault);
    if !valid {
      return;
    }
    var _, validTo := ValidateAccount(server.store, ctx, r.toAccountId, r.currency, toFault);
    if !validTo {
      return;
    }

    var payload := ctx.MustGet(AuthorizationPayloadKey);
    if payload.None? {
      ctx.Panic();
      return;
    }
    if account.owner != payload.value.username {
      ctx.JSON(StatusForbidden, ErrorBody(Message(OwnerMessage)));
      return;
    }

    var input := TransferTxParams(r.fromAccountId, r.toAccountId, r.amount);
    ctx.Record(TransferTxCall(input));
    var results := server.store.TransferTx(input, now, f);
    if results.Err? {
      ctx.JSON(TxStatus(results.error), ErrorBody(TxFailed(results.error)));
      return;
    }
    ctx.JSON(StatusOK, TransferBody(results.value));
  }
}
