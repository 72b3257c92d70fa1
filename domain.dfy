/** The entities the frontend receives from the API (account.model.ts,
    transfer.model.ts). Amounts and balances are integer cents; dates are
    `Stamp`s, the parsed form of the ISO strings the API sends. */
module Domain {
  import opened Common
  import opened Http

  /** The `user` object embedded in an account. */
  datatype Owner = Owner(id: int, firstName: string, lastName: string)

  datatype Account = Account(
    id: int,
    accountNumber: string,
    balance: int,
    currency: string,
    createdAt: Stamp,
    user: Owner)

  function AccountBalance(a: Account): int { a.balance }

  datatype TransferStatus = PENDING | COMPLETED | FAILED | CANCELLED

  datatype Transfer = Transfer(
    id: int,
    fromAccount: Account,
    toAccount: Account,
    amount: int,
    description: Option<string>,
    status: TransferStatus,
    createdAt: Stamp)

  datatype TransferRequest = TransferRequest(
    fromAccountNumber: string,
    toAccountNumber: string,
    amount: int,
    description: Option<string>)

  /** `accounts.find(acc => acc.accountNumber === n)`. */
  function FindAccount(accounts: seq<Account>, n: string): (r: Option<Account>)
    ensures r.None? <==> forall a :: a in accounts ==> a.accountNumber != n
    ensures r.Some? ==> r.value in accounts && r.value.accountNumber == n
  {
    if accounts == [] then None
    else if accounts[0].accountNumber == n then Some(accounts[0])
    else
      assert forall a :: a in accounts ==> a == accounts[0] || a in accounts[1..];
      FindAccount(accounts[1..], n)
  }

  /** `find` returns the first match: every account before it has another
      number. */
  lemma {:induction false} FindAccountIsFirst(accounts: seq<Account>, n: string)
    requires FindAccount(accounts, n).Some?
    ensures exists i :: 0 <= i < |accounts| && accounts[i] == FindAccount(accounts, n).value
                        && forall j :: 0 <= j < i ==> accounts[j].accountNumber != n
  {
    if accounts[0].accountNumber == n {
      assert accounts[0] == FindAccount(accounts, n).value;
    } else {
      var tail := accounts[1..];
      FindAccountIsFirst(tail, n);
      var i :| 0 <= i < |tail| && tail[i] == FindAccount(tail, n).value
               && forall j :: 0 <= j < i ==> tail[j].accountNumber != n;
      assert accounts[i + 1] == tail[i];
      forall j | 0 <= j < i + 1 ensures accounts[j].accountNumber != n {
        if j > 0 { assert accounts[j] == tail[j - 1]; }
      }
    }
  }
}
