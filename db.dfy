/**
 * db/sqlc/store.go and the queries it runs: the store behind both servers.
 * The tables are the fields of one object; the queries the handlers call are
 * its methods (the writes) and its functions (the reads). Whether a statement
 * fails inside the database is an input to each query: a fault `Some(e)` makes
 * the query return `e` and change nothing, as a failing statement does.
 */
module Db {
  import opened Common
  import opened Ledger

  datatype DbError =
    | ErrNoRows              // sql.ErrNoRows: the statement matched no row
    | UniqueViolation        // Postgres unique_violation
    | ForeignKeyViolation    // Postgres foreign_key_violation
    | NumericOutOfRange      // Postgres numeric_value_out_of_range: a bigint sum that does not fit
    | Other(code: string)    // any other driver or server error

  /**
   * The error execTx returns: the error of the failing step as it is, or, when
   * the rollback fails as well, the error formatted from both.
   */
  datatype TxError = Failed(cause: DbError) | RollbackFailed(cause: DbError, rollback: DbError)

  datatype User = User(
    username: string, hashedPassword: string, fullName: string, email: string,
    passwordChangedAt: Time, createdAt: Time)

  datatype Session = Session(
    id: Uuid, username: string, refreshToken: string, userAgent: string, clientIp: string,
    isBlocked: bool, expiresAt: Time, createdAt: Time)

  datatype CreateAccountParams = CreateAccountParams(owner: string, balance: int, currency: string)
  datatype CreateUserParams = CreateUserParams(username: string, hashedPassword: string, fullName: string, email: string)
  datatype CreateSessionParams = CreateSessionParams(
    id: Uuid, username: string, refreshToken: string, userAgent: string, clientIp: string,
    isBlocked: bool, expiresAt: Time)
  datatype ListAccountsParams = ListAccountsParams(owner: string, limit: int, offset: int)

  /**
   * What goes wrong during one TransferTx, step by step: beginning the
   * transaction, each of the five statements, the rollback and the commit.
   */
  datatype TxFaults = TxFaults(
    begin: Option<DbError>,
    createTransfer: Option<DbError>,
    fromEntry: Option<DbError>,
    toEntry: Option<DbError>,
    firstUpdate: Option<DbError>,
    secondUpdate: Option<DbError>,
    rollback: Option<DbError>,
    commit: Option<DbError>)

  /** Every row of the accounts table is stored under its own id. */
  predicate KeyedById(accounts: Accounts) {
    forall k :: k in accounts ==> accounts[k].id == k
  }

  /**
   * The error of AddAccountBalance: the injected fault, else no row for the
   * id, else a new balance outside the range of a bigint column.
   */
  function UpdateError(accounts: Accounts, id: int, delta: int, fault: Option<DbError>): (r: Option<DbError>)
    ensures r.None? <==> fault.None? && id in accounts && IsInt64(accounts[id].balance + delta)
    ensures fault.None? && id !in accounts ==> r == Some(ErrNoRows)
  {
    if fault.Some? then fault
    else if id !in accounts then Some(ErrNoRows)
    else if !IsInt64(accounts[id].balance + delta) then Some(NumericOutOfRange)
    else None
  }

  /**
   * The error the body of TransferTx returns, if any: the first failing step
   * among the transfer insert, the two entry inserts and the two balance
   * updates, the second update seeing the first one's effect.
   */
  /**
   * The error of the two balance updates, if any: the first update, then the
   * second one on the table the first one left.
   */
  function UpdatesError(accounts: Accounts, arg: TransferTxParams, f: TxFaults): Option<DbError>
    requires IsInt64(arg.amount)
  {
    var u := Updates(arg);
    match UpdateError(accounts, u[0].0, u[0].1, f.firstUpdate)
    case Some(e) => Some(e)
    case None => UpdateError(Credit(accounts, u[0].0, u[0].1), u[1].0, u[1].1, f.secondUpdate)
  }

  /**
   * The error the body of TransferTx returns, if any: the first failing step
   * among the transfer insert, the two entry inserts and the two balance
   * updates.
   */
  function TransferError(accounts: Accounts, arg: TransferTxParams, f: TxFaults): Option<DbError>
    requires IsInt64(arg.amount)
  {
    if f.createTransfer.Some? then f.createTransfer
    else if f.fromEntry.Some? then f.fromEntry
    else if f.toEntry.Some? then f.toEntry
    else UpdatesError(accounts, arg, f)
  }

  /** No step of the transaction is made to fail. */
  predicate NoFaults(f: TxFaults) {
    f == TxFaults(None, None, None, None, None, None, None, None)
  }

  /**
   * TransferTx has no check of its own: a missing account surfaces only as
   * the ErrNoRows of its balance update, once the transfer row and both entry
   * rows have been written (and are then rolled back). If the update of the
   * other account comes first and overflows, that error comes first.
   */
  lemma MissingAccountFails(accounts: Accounts, arg: TransferTxParams, f: TxFaults)
    requires IsInt64(arg.amount) && NoFaults(f)
    requires arg.fromAccountId !in accounts || arg.toAccountId !in accounts
    ensures TransferError(accounts, arg, f) == Some(ErrNoRows) || TransferError(accounts, arg, f) == Some(NumericOutOfRange)
    ensures arg.fromAccountId !in accounts && arg.toAccountId !in accounts ==> TransferError(accounts, arg, f) == Some(ErrNoRows)
  {
    if arg.fromAccountId < arg.toAccountId {
      if arg.fromAccountId in accounts {
        assert arg.toAccountId !in Credit(accounts, arg.fromAccountId, Neg64(arg.amount));
      }
    } else {
      if arg.toAccountId in accounts {
        assert arg.fromAccountId !in Credit(accounts, arg.toAccountId, arg.amount);
      }
    }
  }

  /**
   * With no injected fault, a transfer between existing accounts goes
   * through whenever the balances it produces fit in a bigint: there is no
   * check that the amount is positive, that the accounts differ, or that the
   * source account can cover the amount.
   */
  lemma TransferGoesThrough(accounts: Accounts, arg: TransferTxParams, f: TxFaults)
    requires IsInt64(arg.amount) && arg.amount != MinInt64 && NoFaults(f)
    requires arg.fromAccountId in accounts && arg.toAccountId in accounts
    requires IsInt64(accounts[arg.fromAccountId].balance - arg.amount)
    requires IsInt64(accounts[arg.toAccountId].balance + arg.amount)
    requires arg.fromAccountId == arg.toAccountId ==> IsInt64(accounts[arg.toAccountId].balance)
    ensures TransferError(accounts, arg, f).None?
  {
    var from, to := arg.fromAccountId, arg.toAccountId;
    if from < to {
      var mid := Credit(accounts, from, Neg64(arg.amount));
      assert mid[to] == accounts[to];
    } else if from > to {
      var mid := Credit(accounts, to, arg.amount);
      assert mid[from] == accounts[from];
    } else {
      var mid := Credit(accounts, to, arg.amount);
      assert mid[from].balance + Neg64(arg.amount) == accounts[from].balance;
    }
  }

  /**
   * The rows of `accounts` with an id in [1, n) that belong to `owner`, in
   * ascending id order: what `SELECT ... WHERE owner = $1 ORDER BY id` reads.
   */
  function OwnedBelow(accounts: Accounts, owner: string, n: int): (r: seq<Account>)
    requires KeyedById(accounts)
    ensures forall i :: 0 <= i < |r| ==> r[i].id in accounts && accounts[r[i].id] == r[i] && r[i].owner == owner
    ensures forall i :: 0 <= i < |r| ==> 1 <= r[i].id < n
    ensures forall i, j :: 0 <= i < j < |r| ==> r[i].id < r[j].id
    ensures forall k :: 1 <= k < n && k in accounts && accounts[k].owner == owner ==> accounts[k] in r
    decreases n
  {
    if n <= 1 then []
    else
      var prev := OwnedBelow(accounts, owner, n - 1);
      if n - 1 in accounts && accounts[n - 1].owner == owner then prev + [accounts[n - 1]] else prev
  }

  /** LIMIT/OFFSET: at most `limit` rows, starting `offset` rows in. */
  function Page<T>(rows: seq<T>, offset: nat, limit: nat): (r: seq<T>)
    ensures |r| <= limit
    ensures offset <= |rows| ==> r == rows[offset..if offset + limit <= |rows| then offset + limit else |rows|]
    ensures offset >= |rows| ==> r == []
  {
    if offset >= |rows| then []
    else if offset + limit <= |rows| then rows[offset..offset + limit]
    else rows[offset..]
  }

  /** The store: the five tables, plus a trace of the rows whose balances were updated. */
  class Store {
    var accounts: Accounts
    var entries: seq<Entry>
    var transfers: seq<Transfer>
    var users: map<string, User>
    var sessions: map<Uuid, Session>
    /** The next value of the accounts id sequence. */
    var nextAccountId: int
    /** The ids whose balance rows were updated (and so locked), in order. */
    ghost var updates: seq<int>

    /**
     * Every row is stored under its key, account ids come from the sequence,
     * entry and transfer ids from theirs, and balances fit a bigint column.
     */
    predicate Valid()
      reads this
    {
      && KeyedById(accounts)
      && nextAccountId >= 1
      && (forall k :: k in accounts ==> 1 <= k < nextAccountId && IsInt64(accounts[k].balance))
      && (forall i :: 0 <= i < |entries| ==> entries[i].id == i + 1)
      && (forall i :: 0 <= i < |transfers| ==> transfers[i].id == i + 1)
      && (forall u :: u in users ==> users[u].username == u)
      && (forall s :: s in sessions ==> sessions[s].id == s)
    }

    /** An empty database. */
    constructor ()
      ensures Valid()
      ensures accounts == map[] && entries == [] && transfers == [] && users == map[] && sessions == map[]
      ensures updates == []
    {
      accounts := map[];
      entries := [];
      transfers := [];
      users := map[];
      sessions := map[];
      nextAccountId := 1;
      updates := [];
    }

    // ---- reads ----

    /** GetAccount: the row with that id, or ErrNoRows. */
    function GetAccount(id: int, fault: Option<DbError>): (r: Result<Account, DbError>)
      reads this
      ensures r.Ok? <==> fault.None? && id in accounts
      ensures r.Ok? ==> r.value == accounts[id]
      ensures r.Err? ==> r.error == if fault.Some? then fault.value else ErrNoRows
    {
      if fault.Some? then Err(fault.value)
      else if id in accounts then Ok(accounts[id])
      else Err(ErrNoRows)
    }

    /** GetUser: the row with that username, or ErrNoRows. */
    function GetUser(username: string, fault: Option<DbError>): (r: Result<User, DbError>)
      reads this
      ensures r.Ok? <==> fault.None? && username in users
      ensures r.Ok? ==> r.value == users[username]
      ensures r.Err? ==> r.error == if fault.Some? then fault.value else ErrNoRows
    {
      if fault.Some? then Err(fault.value)
      else if username in users then Ok(users[username])
      else Err(ErrNoRows)
    }

    /** GetSession: the row with that id, or ErrNoRows. */
    function GetSession(id: Uuid, fault: Option<DbError>): (r: Result<Session, DbError>)
      reads this
      ensures r.Ok? <==> fault.None? && id in sessions
      ensures r.Ok? ==> r.value == sessions[id]
      ensures r.Err? ==> r.error == if fault.Some? then fault.value else ErrNoRows
    {
      if fault.Some? then Err(fault.value)
      else if id in sessions then Ok(sessions[id])
      else Err(ErrNoRows)
    }

    /**
     * ListAccounts: the owner's accounts in id order, `limit` of them from
     * `offset` on. Postgres refuses a negative LIMIT or OFFSET.
     */
    function ListAccounts(arg: ListAccountsParams, fault: Option<DbError>): (r: Result<seq<Account>, DbError>)
      reads this
      requires Valid()
      ensures r.Ok? <==> fault.None? && arg.limit >= 0 && arg.offset >= 0
      ensures r.Ok? ==> |r.value| <= arg.limit
      ensures r.Ok? ==> forall i :: 0 <= i < |r.value| ==> r.value[i].owner == arg.owner && r.value[i].id in accounts && accounts[r.value[i].id] == r.value[i]
      ensures r.Ok? ==> forall i, j :: 0 <= i < j < |r.value| ==> r.value[i].id < r.value[j].id
      ensures r.Ok? ==> r.value == Page(OwnedBelow(accounts, arg.owner, nextAccountId), arg.offset, arg.limit)
    {
      if fault.Some? then Err(fault.value)
      else if arg.limit < 0 then Err(Other("LIMIT must not be negative"))
      else if arg.offset < 0 then Err(Other("OFFSET must not be negative"))
      else
        var all := OwnedBelow(accounts, arg.owner, nextAccountId);
        var r := Page(all, arg.offset, arg.limit);
        assert forall i :: 0 <= i < |r| ==> r[i] == all[arg.offset + i];
        Ok(r)
    }

    // ---- single-statement writes ----

    /** CreateAccount: a new row under the next id of the sequence. */
    method CreateAccount(arg: CreateAccountParams, now: Time, fault: Option<DbError>) returns (r: Result<Account, DbError>)
      requires Valid() && IsInt64(arg.balance)
      modifies this
      ensures Valid()
      ensures r.Ok? <==> fault.None?
      ensures r.Err? ==> r.error == fault.value && unchanged(this)
      ensures r.Ok? ==> r.value == Account(old(nextAccountId), arg.owner, arg.balance, arg.currency, now)
      ensures r.Ok? ==> old(nextAccountId) !in old(accounts) && accounts == old(accounts)[r.value.id := r.value]
      ensures r.Ok? ==> nextAccountId == old(nextAccountId) + 1
      ensures entries == old(entries) && transfers == old(transfers) && users == old(users) && sessions == old(sessions)
      ensures updates == old(updates)
    {
      if fault.Some? {
        return Err(fault.value);
      }
      var a := Account(nextAccountId, arg.owner, arg.balance, arg.currency, now);
      assert nextAccountId !in accounts;
      accounts := accounts[nextAccountId := a];
      nextAccountId := nextAccountId + 1;
      return Ok(a);
    }

    /**
     * CreateUser: a new row keyed by the username, which must be new. The
     * password has never been changed: password_changed_at keeps the
     * column's default, the zero time; created_at is the insert's clock.
     */
    method CreateUser(arg: CreateUserParams, now: Time, fault: Option<DbError>) returns (r: Result<User, DbError>)
      requires Valid()
      modifies this
      ensures Valid()
      ensures r.Ok? <==> fault.None? && arg.username !in old(users)
      ensures r.Err? ==> unchanged(this)
      ensures r.Err? ==> r.error == if fault.Some? then fault.value else UniqueViolation
      ensures r.Ok? ==> r.value == User(arg.username, arg.hashedPassword, arg.fullName, arg.email, ZeroTime, now)
      ensures r.Ok? ==> users == old(users)[arg.username := r.value]
      ensures accounts == old(accounts) && entries == old(entries) && transfers == old(transfers)
      ensures sessions == old(sessions) && nextAccountId == old(nextAccountId) && updates == old(updates)
    {
      if fault.Some? {
        return Err(fault.value);
      }
      if arg.username in users {
        return Err(UniqueViolation);
      }
      var u := User(arg.username, arg.hashedPassword, arg.fullName, arg.email, ZeroTime, now);
      users := users[arg.username := u];
      return Ok(u);
    }

    /** CreateSession: a new row keyed by the session id, which must be new. */
    method CreateSession(arg: CreateSessionParams, now: Time, fault: Option<DbError>) returns (r: Result<Session, DbError>)
      requires Valid()
      modifies this
      ensures Valid()
      ensures r.Ok? <==> fault.None? && arg.id !in old(sessions)
      ensures r.Err? ==> unchanged(this)
      ensures r.Err? ==> r.error == if fault.Some? then fault.value else UniqueViolation
      ensures r.Ok? ==> r.value == Session(arg.id, arg.username, arg.refreshToken, arg.userAgent, arg.clientIp,
                                           arg.isBlocked, arg.expiresAt, now)
      ensures r.Ok? ==> sessions == old(sessions)[arg.id := r.value]
      ensures accounts == old(accounts) && entries == old(entries) && transfers == old(transfers)
      ensures users == old(users) && nextAccountId == old(nextAccountId) && updates == old(updates)
    {
      if fault.Some? {
        return Err(fault.value);
      }
      if arg.id in sessions {
        return Err(UniqueViolation);
      }
      var s := Session(arg.id, arg.username, arg.refreshToken, arg.userAgent, arg.clientIp, arg.isBlocked, arg.expiresAt, now);
      sessions := sessions[arg.id := s];
      return Ok(s);
    }

    /** CreateTransfer: one transfer row, appended under the next transfer id. */
    method CreateTransfer(arg: TransferTxParams, now: Time, fault: Option<DbError>) returns (r: Result<Transfer, DbError>)
      requires Valid()
      modifies this
      ensures Valid()
      ensures r.Ok? <==> fault.None?
      ensures r.Err? ==> r.error == fault.value && unchanged(this)
      ensures r.Ok? ==> r.value == Transfer(|old(transfers)| + 1, arg.fromAccountId, arg.toAccountId, arg.amount, now)
      ensures r.Ok? ==> transfers == old(transfers) + [r.value]
      ensures accounts == old(accounts) && entries == old(entries) && users == old(users)
      ensures sessions == old(sessions) && nextAccountId == old(nextAccountId) && updates == old(updates)
    {
      if fault.Some? {
        return Err(fault.value);
      }
      var t := Transfer(|transfers| + 1, arg.fromAccountId, arg.toAccountId, arg.amount, now);
      transfers := transfers + [t];
      return Ok(t);
    }

    /** CreateEntry: one entry row, appended under the next entry id. */
    method CreateEntry(accountId: int, amount: int, now: Time, fault: Option<DbError>) returns (r: Result<Entry, DbError>)
      requires Valid()
      modifies this
      ensures Valid()
      ensures r.Ok? <==> fault.None?
      ensures r.Err? ==> r.error == fault.value && unchanged(this)
      ensures r.Ok? ==> r.value == Entry(|old(entries)| + 1, accountId, amount, now)
      ensures r.Ok? ==> entries == old(entries) + [r.value]
      ensures accounts == old(accounts) && transfers == old(transfers) && users == old(users)
      ensures sessions == old(sessions) && nextAccountId == old(nextAccountId) && updates == old(updates)
    {
      if fault.Some? {
        return Err(fault.value);
      }
      var e := Entry(|entries| + 1, accountId, amount, now);
      entries := entries + [e];
      return Ok(e);
    }

    /**
     * AddAccountBalance: `balance = balance + amount` on one row, returning the
     * updated row; the row is recorded in the update trace.
     */
    method AddAccountBalance(id: int, amount: int, fault: Option<DbError>) returns (r: Result<Account, DbError>)
      requires Valid()
      modifies this
      ensures Valid()
      ensures r.Err? <==> UpdateError(old(accounts), id, amount, fault).Some?
      ensures r.Err? ==> r.error == UpdateError(old(accounts), id, amount, fault).value && unchanged(this)
      ensures r.Ok? ==> accounts == Credit(old(accounts), id, amount) && r.value == accounts[id]
      ensures r.Ok? ==> updates == old(updates) + [id]
      ensures entries == old(entries) && transfers == old(transfers) && users == old(users)
      ensures sessions == old(sessions) && nextAccountId == old(nextAccountId)
    {
      var e := UpdateError(accounts, id, amount, fault);
      if e.Some? {
        return Err(e.value);
      }
      accounts := Credit(accounts, id, amount);
      updates := updates + [id];
      return Ok(accounts[id]);
    }

    // ---- the transfer transaction ----

    /**
     * addMoney: the two balance updates in the order given, stopping at the
     * first that fails. The first update is not undone here; the enclosing
     * transaction's rollback does that.
     */
    method AddMoney(id1: int, amount1: int, id2: int, amount2: int, fault1: Option<DbError>, fault2: Option<DbError>)
      returns (r: Result<(Account, Account), DbError>)
      requires Valid()
      modifies this
      ensures Valid()
      ensures UpdateError(old(accounts), id1, amount1, fault1).Some? ==>
        && r == Err(UpdateError(old(accounts), id1, amount1, fault1).value)
        && unchanged(this)
      ensures UpdateError(old(accounts), id1, amount1, fault1).None? ==>
        && id1 in old(accounts)
        && var mid := Credit(old(accounts), id1, amount1);
        && (UpdateError(mid, id2, amount2, fault2).Some? ==>
              && r == Err(UpdateError(mid, id2, amount2, fault2).value)
              && accounts == mid && updates == old(updates) + [id1])
        && (UpdateError(mid, id2, amount2, fault2).None? ==>
              && r.Ok?
              && accounts == Credit(mid, id2, amount2)
              && r.value.0 == mid[id1] && r.value.1 == accounts[id2]
              && updates == old(updates) + [id1, id2])
      ensures entries == old(entries) && transfers == old(transfers) && users == old(users)
      ensures sessions == old(sessions) && nextAccountId == old(nextAccountId)
    {
      var account1 := AddAccountBalance(id1, amount1, fault1);
      if account1.Err? {
        return Err(account1.error);
      }
      var account2 := AddAccountBalance(id2, amount2, fault2);
      if account2.Err? {
        return Err(account2.error);
      }
      return Ok((account1.value, account2.value));
    }

    /**
     * The state after a successful transfer body, relative to the tables
     * before it: one transfer row and two entry rows appended, the balances
     * moved as AfterTransfer says, and the two accounts returned as the
     * updates left them.
     */
    ghost predicate Applied(
      accounts0: Accounts, entries0: seq<Entry>, transfers0: seq<Transfer>, updates0: seq<int>,
      arg: TransferTxParams, now: Time, res: TransferTxResults)
      requires IsInt64(arg.amount)
      reads this
    {
      && arg.fromAccountId in accounts0 && arg.toAccountId in accounts0
      && accounts == AfterTransfer(accounts0, arg)
      && res.transfer == Transfer(|transfers0| + 1, arg.fromAccountId, arg.toAccountId, arg.amount, now)
      && transfers == transfers0 + [res.transfer]
      && res.fromEntry == Entry(|entries0| + 1, arg.fromAccountId, Neg64(arg.amount), now)
      && res.toEntry == Entry(|entries0| + 2, arg.toAccountId, arg.amount, now)
      && entries == entries0 + [res.fromEntry, res.toEntry]
      && res.fromAccount == accounts[arg.fromAccountId]
      && (arg.fromAccountId != arg.toAccountId ==> res.toAccount == accounts[arg.toAccountId])
      && (arg.fromAccountId == arg.toAccountId ==>
            res.toAccount == accounts0[arg.toAccountId].(balance := accounts0[arg.toAccountId].balance + arg.amount))
      && updates == updates0 + UpdateOrder(arg)
    }

    /** The update trace grew by a prefix of the transfer's update order. */
    ghost predicate TracePrefix(updates0: seq<int>, arg: TransferTxParams)
      reads this
    {
      |updates0| <= |updates| <= |updates0| + 2
      && updates == updates0 + UpdateOrder(arg)[..|updates| - |updates0|]
    }

    /**
     * The balance updates of TransferTx, lower id first: addMoney with the
     * debit first when `from < to`, with the credit first otherwise. Returns
     * (FromAccount, ToAccount).
     */
    method UpdateBalances(arg: TransferTxParams, f: TxFaults) returns (r: Result<(Account, Account), DbError>)
      requires Valid() && IsInt64(arg.amount)
      modifies this
      ensures Valid()
      ensures r.Err? <==> UpdatesError(old(accounts), arg, f).Some?
      ensures r.Err? ==> r.error == UpdatesError(old(accounts), arg, f).value
      ensures r.Ok? ==>
        && arg.fromAccountId in old(accounts) && arg.toAccountId in old(accounts)
        && accounts == AfterTransfer(old(accounts), arg)
        && r.value.0 == accounts[arg.fromAccountId]
        && (arg.fromAccountId != arg.toAccountId ==> r.value.1 == accounts[arg.toAccountId])
        && (arg.fromAccountId == arg.toAccountId ==>
              r.value.1 == old(accounts)[arg.toAccountId].(balance := old(accounts)[arg.toAccountId].balance + arg.amount))
        && updates == old(updates) + UpdateOrder(arg)
      ensures TracePrefix(old(updates), arg)
      ensures entries == old(entries) && transfers == old(transfers) && users == old(users)
      ensures sessions == old(sessions) && nextAccountId == old(nextAccountId)
    {
      ghost var accounts0 := accounts;
      if arg.fromAccountId < arg.toAccountId {
        var money := AddMoney(arg.fromAccountId, Neg64(arg.amount), arg.toAccountId, arg.amount, f.firstUpdate, f.secondUpdate);
        if money.Err? {
          return Err(money.error);
        }
        r := Ok((money.value.0, money.value.1));
      } else {
        var money := AddMoney(arg.toAccountId, arg.amount, arg.fromAccountId, Neg64(arg.amount), f.firstUpdate, f.secondUpdate);
        if money.Err? {
          return Err(money.error);
        }
        r := Ok((money.value.1, money.value.0));
      }
      ApplyUpdates(accounts0, arg);
    }

    /**
     * The function TransferTx hands to execTx: insert the transfer, the
     * debit entry and the credit entry, then update the lower id first. On
     * failure the rows written so far stay; the caller rolls them back.
     */
    method TransferBody(arg: TransferTxParams, now: Time, f: TxFaults) returns (r: Result<TransferTxResults, DbError>)
      requires Valid() && IsInt64(arg.amount)
      modifies this
      ensures Valid()
      ensures r.Err? <==> TransferError(old(accounts), arg, f).Some?
      ensures r.Err? ==> r.error == TransferError(old(accounts), arg, f).value
      ensures r.Ok? ==> Applied(old(accounts), old(entries), old(transfers), old(updates), arg, now, r.value)
      ensures TracePrefix(old(updates), arg)
      ensures users == old(users) && sessions == old(sessions) && nextAccountId == old(nextAccountId)
    {
      var transfer := CreateTransfer(arg, now, f.createTransfer);
      if transfer.Err? {
        return Err(transfer.error);
      }
      var fromEntry := CreateEntry(arg.fromAccountId, Neg64(arg.amount), now, f.fromEntry);
      if fromEntry.Err? {
        return Err(fromEntry.error);
      }
      var toEntry := CreateEntry(arg.toAccountId, arg.amount, now, f.toEntry);
      if toEntry.Err? {
        return Err(toEntry.error);
      }
      var balances := UpdateBalances(arg, f);
      if balances.Err? {
        return Err(balances.error);
      }
      var (fromAccount, toAccount) := balances.value;
      r := Ok(TransferTxResults(transfer.value, fromAccount, toAccount, fromEntry.value, toEntry.value));
    }

    /**
     * TransferTx run through execTx: begin, run the body, and commit, or roll
     * back when the body fails. A failing begin returns its error untouched.
     * A failing body returns its error, combined with the rollback's error if
     * the rollback fails too. A failing commit returns its error. Whatever
     * fails, none of the body's writes remain.
     */
    method TransferTx(arg: TransferTxParams, now: Time, f: TxFaults) returns (r: Result<TransferTxResults, TxError>)
      requires Valid() && IsInt64(arg.amount)
      modifies this
      ensures Valid()
      ensures r.Ok? <==> f.begin.None? && TransferError(old(accounts), arg, f).None? && f.commit.None?
      ensures f.begin.Some? ==> r == Err(Failed(f.begin.value))
      ensures f.begin.None? && TransferError(old(accounts), arg, f).Some? ==>
        var cause := TransferError(old(accounts), arg, f).value;
        r == Err(if f.rollback.Some? then RollbackFailed(cause, f.rollback.value) else Failed(cause))
      ensures f.begin.None? && TransferError(old(accounts), arg, f).None? && f.commit.Some? ==>
        r == Err(Failed(f.commit.value))
      ensures r.Ok? ==> Applied(old(accounts), old(entries), old(transfers), old(updates), arg, now, r.value)
      ensures r.Err? ==> accounts == old(accounts) && entries == old(entries) && transfers == old(transfers)
      ensures TracePrefix(old(updates), arg)
      ensures users == old(users) && sessions == old(sessions) && nextAccountId == old(nextAccountId)
    {
      if f.begin.Some? {
        return Err(Failed(f.begin.value));
      }
      // What the transaction may undo: the three tables the body writes.
      var accounts0, entries0, transfers0 := accounts, entries, transfers;
      var body := TransferBody(arg, now, f);
      if body.Err? {
        accounts, entries, transfers := accounts0, entries0, transfers0;
        if f.rollback.Some? {
          return Err(RollbackFailed(body.error, f.rollback.value));
        }
        return Err(Failed(body.error));
      }
      if f.commit.Some? {
        accounts, entries, transfers := accounts0, entries0, transfers0;
        return Err(Failed(f.commit.value));
      }
      return Ok(body.value);
    }
  }
}
