/** TransferService.java: `createTransfer` looks both accounts up by number,
    refuses a balance below the amount, debits the source, credits the
    destination and saves a COMPLETED transfer. Amounts are integer cents. */
module Ledger {
  import opened Common
  import opened Http
  import opened Domain
  import opened Store

  const SourceMissing := "Compte source introuvable"
  const DestinationMissing := "Compte destinataire introuvable"
  const InsufficientBalance := "Solde insuffisant"

  /** `findByAccountNumber`: the position of the first row with number `n`. */
  function IndexOf(accounts: seq<Account>, n: string): (r: Option<nat>)
    ensures r.None? <==> forall i :: 0 <= i < |accounts| ==> accounts[i].accountNumber != n
    ensures r.Some? ==> r.value < |accounts| && accounts[r.value].accountNumber == n
    ensures r.Some? ==> forall i :: 0 <= i < r.value ==> accounts[i].accountNumber != n
  {
    if accounts == [] then None
    else if accounts[0].accountNumber == n then Some(0)
    else
      var rest := IndexOf(accounts[1..], n);
      if rest.None? then None else Some(rest.value + 1)
  }

  /** `setBalance(getBalance().add(delta))` on row `i`, then `save`. */
  function Credit(accounts: seq<Account>, i: nat, delta: int): (r: seq<Account>)
    requires i < |accounts|
    ensures |r| == |accounts|
    ensures r[i] == accounts[i].(balance := accounts[i].balance + delta)
    ensures forall k :: 0 <= k < |accounts| && k != i ==> r[k] == accounts[k]
  {
    accounts[i := accounts[i].(balance := accounts[i].balance + delta)]
  }

  /** The total of all balances. */
  function Total(accounts: seq<Account>): int {
    SumOf(accounts, AccountBalance)
  }

  /** Crediting one row moves the total by exactly the credited amount. */
  lemma {:induction false} CreditShiftsTotal(accounts: seq<Account>, i: nat, delta: int)
    requires i < |accounts|
    ensures Total(Credit(accounts, i, delta)) == Total(accounts) + delta
  {
    var r := Credit(accounts, i, delta);
    if i > 0 {
      assert r[1..] == Credit(accounts[1..], i - 1, delta);
      CreditShiftsTotal(accounts[1..], i - 1, delta);
    } else {
      assert r[1..] == accounts[1..];
    }
  }

  /** The rows after the debit of `from` and the credit of `to`. */
  function Settled(accounts: seq<Account>, from: nat, to: nat, amount: int): seq<Account>
    requires from < |accounts| && to < |accounts|
  {
    Credit(Credit(accounts, from, -amount), to, amount)
  }

  /** Money moves, it is not created: the total is the same afterwards. */
  lemma SettledConservesTotal(accounts: seq<Account>, from: nat, to: nat, amount: int)
    requires from < |accounts| && to < |accounts|
    ensures Total(Settled(accounts, from, to, amount)) == Total(accounts)
  {
    CreditShiftsTotal(accounts, from, -amount);
    CreditShiftsTotal(Credit(accounts, from, -amount), to, amount);
  }

  /** Between distinct accounts the source loses `amount`, the destination
      gains it, their sum is kept and no other row changes; a transfer to the
      same account (one row, read twice) changes nothing. */
  lemma SettledMovesAmount(accounts: seq<Account>, from: nat, to: nat, amount: int)
    requires from < |accounts| && to < |accounts|
    ensures var r := Settled(accounts, from, to, amount);
      && |r| == |accounts|
      && (from != to ==>
            && r[from].balance == accounts[from].balance - amount
            && r[to].balance == accounts[to].balance + amount
            && r[from].balance + r[to].balance == accounts[from].balance + accounts[to].balance)
      && (from == to ==> r == accounts)
      && (forall k :: 0 <= k < |accounts| && k != from && k != to ==> r[k] == accounts[k])
      && (forall k :: 0 <= k < |accounts| ==> r[k] == accounts[k].(balance := r[k].balance))
  {
    var r := Settled(accounts, from, to, amount);
    if from == to {
      assert r[from] == accounts[from];
      assert forall k :: 0 <= k < |accounts| ==> r[k] == accounts[k];
    }
  }

  /** A balance that covers the amount is never overdrawn. */
  lemma SourceNotOverdrawn(accounts: seq<Account>, from: nat, to: nat, amount: int)
    requires from < |accounts| && to < |accounts| && from != to
    requires accounts[from].balance >= amount
    ensures Settled(accounts, from, to, amount)[from].balance >= 0
  {
    SettledMovesAmount(accounts, from, to, amount);
  }

  /** The debit of the source row, then the credit of the destination row. */
  method Move(db: Database, from: nat, to: nat, amount: int)
    requires from < |db.accounts| && to < |db.accounts|
    modifies db
    ensures db.accounts == Settled(old(db.accounts), from, to, amount)
    ensures db.users == old(db.users) && db.transfers == old(db.transfers)
  {
    db.accounts := Credit(db.accounts, from, -amount);
    db.accounts := Credit(db.accounts, to, amount);
  }

  /** `createTransfer`. `id` and `now` are what the database and the clock
      supply for the new row. */
  method CreateTransfer(db: Database, req: TransferRequest, id: int, now: Stamp) returns (r: Completion<Transfer>)
    modifies db
    ensures db.users == old(db.users)
    ensures IndexOf(old(db.accounts), req.fromAccountNumber).None? ==>
      r == Thrown(SourceMissing) && db.accounts == old(db.accounts) && db.transfers == old(db.transfers)
    ensures IndexOf(old(db.accounts), req.fromAccountNumber).Some? && IndexOf(old(db.accounts), req.toAccountNumber).None? ==>
      r == Thrown(DestinationMissing) && db.accounts == old(db.accounts) && db.transfers == old(db.transfers)
    ensures var f := IndexOf(old(db.accounts), req.fromAccountNumber);
            var t := IndexOf(old(db.accounts), req.toAccountNumber);
      f.Some? && t.Some? && old(db.accounts)[f.value].balance < req.amount ==>
        r == Thrown(InsufficientBalance) && db.accounts == old(db.accounts) && db.transfers == old(db.transfers)
    ensures var f := IndexOf(old(db.accounts), req.fromAccountNumber);
            var t := IndexOf(old(db.accounts), req.toAccountNumber);
      f.Some? && t.Some? && old(db.accounts)[f.value].balance >= req.amount ==>
        && db.accounts == Settled(old(db.accounts), f.value, t.value, req.amount)
        && r == Saved(Transfer(id, db.accounts[f.value], db.accounts[t.value], req.amount, req.description, COMPLETED, now))
        && db.transfers == old(db.transfers) + [r.value]
  {
    var f := IndexOf(db.accounts, req.fromAccountNumber);
    if f.None? {
      return Thrown(SourceMissing);
    }
    var t := IndexOf(db.accounts, req.toAccountNumber);
    if t.None? {
      return Thrown(DestinationMissing);
    }
    if db.accounts[f.value].balance < req.amount {
      return Thrown(InsufficientBalance);
    }
    Move(db, f.value, t.value, req.amount);
    var transfer := Transfer(id, db.accounts[f.value], db.accounts[t.value], req.amount, req.description, COMPLETED, now);
    db.transfers := db.transfers + [transfer];
    return Saved(transfer);
  }
}
