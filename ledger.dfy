/**
 * The rows the money-transfer transaction of db/sqlc/store.go works on, and
 * what one transfer does to the account balances: the specification the
 * store's TransferTx is proved against, with the conservation properties the
 * store's tests check.
 */
module Ledger {
  import opened Common

  const MinInt64: int := -0x8000_0000_0000_0000
  const MaxInt64: int := 0x7fff_ffff_ffff_ffff

  predicate IsInt64(x: int) {
    MinInt64 <= x <= MaxInt64
  }

  /** Go's unary minus on int64: it wraps at the one value whose negation does not fit. */
  function Neg64(x: int): (r: int)
    requires IsInt64(x)
    ensures IsInt64(r)
    ensures x != MinInt64 ==> r == -x
    ensures x == MinInt64 ==> r == MinInt64
  {
    if x == MinInt64 then MinInt64 else -x
  }

  datatype Account = Account(id: int, owner: string, balance: int, currency: string, createdAt: Time)
  datatype Entry = Entry(id: int, accountId: int, amount: int, createdAt: Time)
  datatype Transfer = Transfer(id: int, fromAccountId: int, toAccountId: int, amount: int, createdAt: Time)

  /** The zero Account, the value a Go `Account` variable holds before it is filled. */
  const ZeroAccount: Account := Account(0, "", 0, "", 0)

  datatype TransferTxParams = TransferTxParams(fromAccountId: int, toAccountId: int, amount: int)

  datatype TransferTxResults = TransferTxResults(
    transfer: Transfer, fromAccount: Account, toAccount: Account, fromEntry: Entry, toEntry: Entry)

  /** The accounts table, keyed by id. */
  type Accounts = map<int, Account>

  /** AddAccountBalance's effect: one account's balance moves by `delta`, nothing else changes. */
  function Credit(accounts: Accounts, id: int, delta: int): (r: Accounts)
    requires id in accounts
    ensures r.Keys == accounts.Keys
    ensures r[id] == accounts[id].(balance := accounts[id].balance + delta)
    ensures forall k :: k in accounts && k != id ==> r[k] == accounts[k]
  {
    accounts[id := accounts[id].(balance := accounts[id].balance + delta)]
  }

  /** Two balance updates commute: the final table does not depend on their order. */
  lemma CreditCommutes(accounts: Accounts, a: int, da: int, b: int, db: int)
    requires a in accounts && b in accounts
    ensures Credit(Credit(accounts, a, da), b, db) == Credit(Credit(accounts, b, db), a, da)
  {
    var l := Credit(Credit(accounts, a, da), b, db);
    var r := Credit(Credit(accounts, b, db), a, da);
    assert l.Keys == r.Keys;
    forall k | k in l ensures l[k] == r[k] {
    }
  }

  /** The sum of all balances. */
  ghost function Total(accounts: Accounts): int
    decreases |accounts|
  {
    if |accounts| == 0 then 0
    else
      HasMember(accounts.Keys);
      var k := Pick(accounts.Keys);
      accounts[k].balance + Total(accounts - {k})
  }

  /** Some element of a set that has one. */
  ghost function Pick(ids: set<int>): (k: int)
    requires exists x :: x in ids
    ensures k in ids
  {
    var x :| x in ids; x
  }

  lemma HasMember(ids: set<int>)
    requires |ids| > 0
    ensures exists x :: x in ids
  {
    if forall x :: x !in ids {
      assert false;
    }
  }

  /** Any account can be taken out first when summing. */
  lemma {:induction false} TotalRemove(accounts: Accounts, k: int)
    requires k in accounts
    ensures Total(accounts) == accounts[k].balance + Total(accounts - {k})
    decreases |accounts|
  {
    HasMember(accounts.Keys);
    var j := Pick(accounts.Keys);
    if j != k {
      var rest := accounts - {j};
      assert k in rest;
      assert |rest| < |accounts| by { assert rest.Keys < accounts.Keys; }
      TotalRemove(rest, k);
      var rest2 := accounts - {k};
      assert j in rest2;
      assert |rest2| < |accounts| by { assert rest2.Keys < accounts.Keys; }
      TotalRemove(rest2, j);
      assert rest - {k} == rest2 - {j};
    }
  }

  /** Moving one balance by `delta` moves the total by `delta`. */
  lemma TotalCredit(accounts: Accounts, id: int, delta: int)
    requires id in accounts
    ensures Total(Credit(accounts, id, delta)) == Total(accounts) + delta
  {
    var c := Credit(accounts, id, delta);
    TotalRemove(accounts, id);
    TotalRemove(c, id);
    assert c - {id} == accounts - {id};
  }

  /**
   * The order in which TransferTx updates the two balances: the lower id
   * first when `from < to`, otherwise `to` then `from` (a self-transfer takes
   * this second branch). Either way the first id is the smaller one.
   */
  function UpdateOrder(arg: TransferTxParams): (r: seq<int>)
    ensures |r| == 2 && r[0] <= r[1]
    ensures multiset(r) == multiset{arg.fromAccountId, arg.toAccountId}
    ensures r[0] == if arg.fromAccountId < arg.toAccountId then arg.fromAccountId else arg.toAccountId
  {
    if arg.fromAccountId < arg.toAccountId then [arg.fromAccountId, arg.toAccountId]
    else [arg.toAccountId, arg.fromAccountId]
  }

  /**
   * The two balance updates TransferTx issues, in the order it issues them, as
   * (account id, delta) pairs: the arguments it hands to addMoney.
   */
  function Updates(arg: TransferTxParams): (r: seq<(int, int)>)
    requires IsInt64(arg.amount)
    ensures |r| == 2 && r[0].0 == UpdateOrder(arg)[0] && r[1].0 == UpdateOrder(arg)[1]
  {
    if arg.fromAccountId < arg.toAccountId then [(arg.fromAccountId, Neg64(arg.amount)), (arg.toAccountId, arg.amount)]
    else [(arg.toAccountId, arg.amount), (arg.fromAccountId, Neg64(arg.amount))]
  }

  /** The two updates are the debit of `from` and the credit of `to`, in some order. */
  lemma UpdatesArePair(arg: TransferTxParams)
    requires IsInt64(arg.amount)
    ensures multiset(Updates(arg)) == multiset{(arg.fromAccountId, Neg64(arg.amount)), (arg.toAccountId, arg.amount)}
  {
  }

  /** The accounts table after one transfer: `from` is debited, `to` credited. */
  function AfterTransfer(accounts: Accounts, arg: TransferTxParams): Accounts
    requires arg.fromAccountId in accounts && arg.toAccountId in accounts
    requires IsInt64(arg.amount)
  {
    Credit(Credit(accounts, arg.fromAccountId, Neg64(arg.amount)), arg.toAccountId, arg.amount)
  }

  /** Applying the two updates in the order TransferTx issues them gives AfterTransfer. */
  lemma ApplyUpdates(accounts: Accounts, arg: TransferTxParams)
    requires arg.fromAccountId in accounts && arg.toAccountId in accounts
    requires IsInt64(arg.amount)
    ensures var u := Updates(arg);
      Credit(Credit(accounts, u[0].0, u[0].1), u[1].0, u[1].1) == AfterTransfer(accounts, arg)
  {
    if arg.fromAccountId >= arg.toAccountId {
      CreditCommutes(accounts, arg.toAccountId, arg.amount, arg.fromAccountId, Neg64(arg.amount));
    }
  }

  /**
   * One transfer between two distinct accounts: `from` loses the amount, `to`
   * gains it, every other account is untouched and no account appears or
   * disappears. A self-transfer leaves its account as it was.
   */
  lemma TransferBalances(accounts: Accounts, arg: TransferTxParams)
    requires arg.fromAccountId in accounts && arg.toAccountId in accounts
    requires IsInt64(arg.amount) && arg.amount != MinInt64
    ensures var r := AfterTransfer(accounts, arg);
      && r.Keys == accounts.Keys
      && (arg.fromAccountId != arg.toAccountId ==>
            && r[arg.fromAccountId].balance == accounts[arg.fromAccountId].balance - arg.amount
            && r[arg.toAccountId].balance == accounts[arg.toAccountId].balance + arg.amount)
      && (arg.fromAccountId == arg.toAccountId ==> r == accounts)
      && (forall k :: k in accounts && k != arg.fromAccountId && k != arg.toAccountId ==> r[k] == accounts[k])
  {
    if arg.fromAccountId == arg.toAccountId {
      var r := AfterTransfer(accounts, arg);
      forall k | k in r ensures r[k] == accounts[k] {
      }
    }
  }

  /** A transfer neither creates nor destroys money: the total balance is unchanged. */
  lemma TransferConserves(accounts: Accounts, arg: TransferTxParams)
    requires arg.fromAccountId in accounts && arg.toAccountId in accounts
    requires IsInt64(arg.amount) && arg.amount != MinInt64
    ensures Total(AfterTransfer(accounts, arg)) == Total(accounts)
  {
    var mid := Credit(accounts, arg.fromAccountId, Neg64(arg.amount));
    TotalCredit(accounts, arg.fromAccountId, Neg64(arg.amount));
    TotalCredit(mid, arg.toAccountId, arg.amount);
  }

  /** Go's wrap-around: at MinInt64 both entries carry MinInt64, so they do not cancel. */
  lemma EntriesDoNotCancelAtMinInt64()
    ensures Neg64(MinInt64) + MinInt64 != 0
  {
  }

  /** `n` successive transfers with the same parameters. */
  function Repeat(accounts: Accounts, arg: TransferTxParams, n: nat): (r: Accounts)
    requires arg.fromAccountId in accounts && arg.toAccountId in accounts
    requires IsInt64(arg.amount)
    ensures r.Keys == accounts.Keys
  {
    if n == 0 then accounts else AfterTransfer(Repeat(accounts, arg, n - 1), arg)
  }

  /**
   * `n` successive transfers of `amount` from A to B leave A at A0 - n*amount
   * and B at B0 + n*amount.
   */
  lemma {:induction false} RepeatedTransfers(accounts: Accounts, arg: TransferTxParams, n: nat)
    requires arg.fromAccountId in accounts && arg.toAccountId in accounts
    requires arg.fromAccountId != arg.toAccountId
    requires IsInt64(arg.amount) && arg.amount != MinInt64
    ensures Repeat(accounts, arg, n)[arg.fromAccountId].balance == accounts[arg.fromAccountId].balance - n * arg.amount
    ensures Repeat(accounts, arg, n)[arg.toAccountId].balance == accounts[arg.toAccountId].balance + n * arg.amount
  {
    if n > 0 {
      RepeatedTransfers(accounts, arg, n - 1);
      TransferBalances(Repeat(accounts, arg, n - 1), arg);
    }
  }

  /** The transfer from `b` back to `a` of the same amount. */
  function Reversed(arg: TransferTxParams): TransferTxParams {
    TransferTxParams(arg.toAccountId, arg.fromAccountId, arg.amount)
  }

  /**
   * `n` transfers alternating in direction: the even-numbered ones (from 0)
   * go from `from` to `to`, the odd-numbered ones back.
   */
  function Alternate(accounts: Accounts, arg: TransferTxParams, n: nat): (r: Accounts)
    requires arg.fromAccountId in accounts && arg.toAccountId in accounts
    requires IsInt64(arg.amount)
    ensures r.Keys == accounts.Keys
  {
    if n == 0 then accounts
    else
      var prev := Alternate(accounts, arg, n - 1);
      if (n - 1) % 2 == 0 then AfterTransfer(prev, arg) else AfterTransfer(prev, Reversed(arg))
  }

  /** A transfer followed by the same transfer back restores every account exactly. */
  lemma TransferThenBack(accounts: Accounts, arg: TransferTxParams)
    requires arg.fromAccountId in accounts && arg.toAccountId in accounts
    requires IsInt64(arg.amount) && arg.amount != MinInt64
    ensures AfterTransfer(AfterTransfer(accounts, arg), Reversed(arg)) == accounts
  {
    var r := AfterTransfer(AfterTransfer(accounts, arg), Reversed(arg));
    assert r.Keys == accounts.Keys;
    forall k | k in r ensures r[k] == accounts[k] {
    }
  }

  /** Two more alternating transfers: one there, one back. */
  lemma AlternateTwoMore(accounts: Accounts, arg: TransferTxParams, k: nat)
    requires arg.fromAccountId in accounts && arg.toAccountId in accounts
    requires IsInt64(arg.amount)
    ensures Alternate(accounts, arg, 2 * k + 2)
         == AfterTransfer(AfterTransfer(Alternate(accounts, arg, 2 * k), arg), Reversed(arg))
  {
    assert (2 * k) % 2 == 0;
    assert (2 * k + 1) % 2 == 1;
  }

  /** An even number of alternating transfers leaves every balance as it was. */
  lemma {:induction false} AlternatingTransfers(accounts: Accounts, arg: TransferTxParams, k: nat)
    requires arg.fromAccountId in accounts && arg.toAccountId in accounts
    requires IsInt64(arg.amount) && arg.amount != MinInt64
    ensures Alternate(accounts, arg, 2 * k) == accounts
  {
    if k > 0 {
      var j := k - 1;
      AlternatingTransfers(accounts, arg, j);
      var prev := Alternate(accounts, arg, 2 * j);
      assert prev == accounts;
      AlternateTwoMore(accounts, arg, j);
      assert 2 * k == 2 * j + 2;
      TransferThenBack(accounts, arg);
    }
  }

  /**
   * The store's test scenario, written out: A at 1000 and B at 500, five
   * transfers of 100 from A to B leave A at 500 and B at 1000.
   */
  lemma FiveTransfersOfHundred(accounts: Accounts, a: int, b: int)
    requires a in accounts && b in accounts && a != b
    requires accounts[a].balance == 1000 && accounts[b].balance == 500
    ensures Repeat(accounts, TransferTxParams(a, b, 100), 5)[a].balance == 500
    ensures Repeat(accounts, TransferTxParams(a, b, 100), 5)[b].balance == 1000
  {
    RepeatedTransfers(accounts, TransferTxParams(a, b, 100), 5);
  }
}
