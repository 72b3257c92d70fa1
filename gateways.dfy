/** account.service.ts: the account endpoints' replies unwrapped from the
    `{success, message, data}` envelope, and the display summary of an
    account. Currency formatting (`Intl.NumberFormat`) is a parameter. */
module AccountGateway {
  import opened Common
  import opened Http
  import opened Domain

  const AccountsFailure := "Erreur lors de la récupération des comptes"
  const AccountNotFound := "Compte introuvable"
  const AccountFailure := "Erreur lors de la récupération du compte"
  const CheckFailure := "Erreur lors de la vérification"

  /** The message every gateway failure ends with: the server's message for
      an HTTP failure, and otherwise the catch-all default, because the
      `Error` thrown by the `map` step has no `error` body to read. */
  function FailureMessage<T>(reply: Reply<T>, fallback: string): string {
    if reply.Failed? then OrElse(reply.error.serverMessage, fallback) else fallback
  }

  /** The `map` step of a gateway that only demands `success`. */
  function RequireSuccess<T, U>(env: ApiResponse<T>, fallback: string, value: ApiResponse<T> -> U): Stream<U> {
    if !env.success then Throws(ErrorThrown(if env.message != "" then env.message else fallback))
    else Emits(value(env))
  }

  /** The `map` step of a gateway that demands `success` and `data`. */
  function RequireData<T>(env: ApiResponse<T>, fallback: string): Stream<T> {
    if !env.success || env.data.None? then Throws(ErrorThrown(if env.message != "" then env.message else fallback))
    else Emits(env.data.value)
  }

  /** `getUserAccounts`. */
  function UserAccounts(reply: Reply<seq<Account>>): (r: Result<seq<Account>>)
    ensures r.Ok? <==> reply.Delivered? && reply.envelope.success
    ensures r.Ok? ==> r.value == (if reply.envelope.data.Some? then reply.envelope.data.value else [])
    ensures r.Fail? ==> r.message == FailureMessage(reply, AccountsFailure)
  {
    Rewrap(Then(Received(reply), (env: ApiResponse<seq<Account>>) =>
      RequireSuccess(env, AccountsFailure, (e: ApiResponse<seq<Account>>) => if e.data.Some? then e.data.value else [])),
      AccountsFailure)
  }

  /** `getAccountByNumber`. */
  function AccountByNumber(reply: Reply<Account>): (r: Result<Account>)
    ensures r.Ok? <==> reply.Delivered? && reply.envelope.success && reply.envelope.data.Some?
    ensures r.Ok? ==> r.value == reply.envelope.data.value
    ensures r.Fail? ==> r.message == FailureMessage(reply, AccountFailure)
  {
    Rewrap(Then(Received(reply), (env: ApiResponse<Account>) => RequireData(env, AccountNotFound)), AccountFailure)
  }

  /** The "Compte introuvable" text of the `map` step never reaches the
      caller: a delivered reply without data ends with the catch-all text. */
  lemma NotFoundTextIsReplaced(env: ApiResponse<Account>)
    requires env.data.None?
    ensures AccountByNumber(Delivered(env)) == Fail(AccountFailure)
  {
  }

  /** `checkAccountExists`: `data || false`. */
  function CheckExists(reply: Reply<bool>): (r: Result<bool>)
    ensures r.Ok? <==> reply.Delivered? && reply.envelope.success
    ensures r.Ok? ==> (r.value <==> reply.envelope.data == Some(true))
    ensures r.Fail? ==> r.message == FailureMessage(reply, CheckFailure)
  {
    Rewrap(Then(Received(reply), (env: ApiResponse<bool>) =>
      RequireSuccess(env, CheckFailure, (e: ApiResponse<bool>) => e.data.Some? && e.data.value)),
      CheckFailure)
  }

  /** The request `checkAccountExists` makes: a GET of `/accounts/search`
      with the number as the `accountNumber` query parameter. */
  function SearchRequest(apiUrl: string, accountNumber: string): (req: Request)
    ensures req.verb == GetMethod && req.url == apiUrl + "/accounts/search"
    ensures req.params.Keys == {"accountNumber"} && req.params["accountNumber"] == accountNumber
  {
    Request(GetMethod, apiUrl + "/accounts/search", map[], map["accountNumber" := accountNumber])
  }

  /** Two searches send the same URL, whatever numbers they look up: only the
      query parameters tell them apart. */
  lemma SearchesShareUrl(apiUrl: string, n1: string, n2: string)
    requires n1 != n2
    ensures SearchRequest(apiUrl, n1).url == SearchRequest(apiUrl, n2).url
    ensures SearchRequest(apiUrl, n1).params != SearchRequest(apiUrl, n2).params
  {
    assert SearchRequest(apiUrl, n1).params["accountNumber"] != SearchRequest(apiUrl, n2).params["accountNumber"];
  }

  datatype AccountSummary = AccountSummary(
    accountNumber: string,
    balance: int,
    currency: string,
    displayBalance: string,
    isActive: bool)

  /** `mapToAccountSummary`; `format(balance, currency)` is the
      `Intl.NumberFormat` text. */
  function MapToAccountSummary(a: Account, format: (int, string) -> string): (s: AccountSummary)
    ensures s.accountNumber == a.accountNumber && s.balance == a.balance && s.currency == a.currency
    ensures s.displayBalance == format(a.balance, a.currency)
    ensures s.isActive <==> a.balance >= 0
  {
    AccountSummary(a.accountNumber, a.balance, a.currency, format(a.balance, a.currency), a.balance >= 0)
  }

  /** `getAccountSummaries`: one summary per account, in order. */
  function AccountSummaries(reply: Reply<seq<Account>>, format: (int, string) -> string): (r: Result<seq<AccountSummary>>)
    ensures r.Ok? <==> UserAccounts(reply).Ok?
    ensures r.Ok? ==> |r.value| == |UserAccounts(reply).value|
                      && forall i :: 0 <= i < |r.value| ==>
                           r.value[i] == MapToAccountSummary(UserAccounts(reply).value[i], format)
    ensures r.Fail? ==> r == Fail(UserAccounts(reply).message)
  {
    match UserAccounts(reply)
    case Ok(accounts) => Ok(seq(|accounts|, i requires 0 <= i < |accounts| => MapToAccountSummary(accounts[i], format)))
    case Fail(m) => Fail(m)
  }
}

/** transfer.service.ts: the transfer endpoints' replies, the display summary
    of a transfer as seen by the signed-in user, and the client-side checks
    made before a transfer is sent. Number and date formatting are parameters. */
module TransferGateway {
  import opened Common
  import opened Http
  import opened Domain
  import AccountGateway

  const CreateFailure := "Erreur lors du transfert"
  const HistoryFailure := "Erreur lors de la récupération de l'historique"
  const TransferNotFound := "Transfert introuvable"
  const TransferFailure := "Erreur lors de la récupération du transfert"
  const NoDescription := "Aucune description"

  const SameAccountError := "Impossible de transférer vers le même compte"
  const NonPositiveError := "Le montant doit être supérieur à 0"
  const InsufficientError := "Solde insuffisant"

  /** `createTransfer`; the post itself is the reply parameter. */
  function CreateTransfer(reply: Reply<Transfer>): (r: Result<Transfer>)
    ensures r.Ok? <==> reply.Delivered? && reply.envelope.success && reply.envelope.data.Some?
    ensures r.Ok? ==> r.value == reply.envelope.data.value
    ensures r.Fail? ==> r.message == AccountGateway.FailureMessage(reply, CreateFailure)
  {
    Rewrap(Then(Received(reply), (env: ApiResponse<Transfer>) => AccountGateway.RequireData(env, CreateFailure)), CreateFailure)
  }

  /** An unsuccessful reply that did arrive surfaces the default text, never
      the server's `message`, because the rethrown `Error` has no body. */
  lemma RefusedTransferShowsDefault(env: ApiResponse<Transfer>)
    requires !env.success
    ensures CreateTransfer(Delivered(env)) == Fail(CreateFailure)
  {
  }

  /** `getUserTransfers`. */
  function UserTransfers(reply: Reply<seq<Transfer>>): (r: Result<seq<Transfer>>)
    ensures r.Ok? <==> reply.Delivered? && reply.envelope.success
    ensures r.Ok? ==> r.value == (if reply.envelope.data.Some? then reply.envelope.data.value else [])
    ensures r.Fail? ==> r.message == AccountGateway.FailureMessage(reply, HistoryFailure)
  {
    Rewrap(Then(Received(reply), (env: ApiResponse<seq<Transfer>>) =>
      AccountGateway.RequireSuccess(env, HistoryFailure, (e: ApiResponse<seq<Transfer>>) => if e.data.Some? then e.data.value else [])),
      HistoryFailure)
  }

  /** `getTransferById`. */
  function TransferById(reply: Reply<Transfer>): (r: Result<Transfer>)
    ensures r.Ok? <==> reply.Delivered? && reply.envelope.success && reply.envelope.data.Some?
    ensures r.Ok? ==> r.value == reply.envelope.data.value
    ensures r.Fail? ==> r.message == AccountGateway.FailureMessage(reply, TransferFailure)
  {
    Rewrap(Then(Received(reply), (env: ApiResponse<Transfer>) => AccountGateway.RequireData(env, TransferNotFound)), TransferFailure)
  }

  datatype Direction = Incoming | Outgoing

  datatype TransferSummary = TransferSummary(
    id: int,
    amount: int,
    description: string,
    date: Stamp,
    direction: Direction,
    accountNumber: string,
    status: TransferStatus,
    displayAmount: string,
    displayDate: string)

  /** `formatAmount`: the formatted amount behind a sign. */
  function FormatAmount(amount: int, outgoing: bool, formatMoney: int -> string): (s: string)
    ensures |s| == |formatMoney(amount)| + 1
    ensures s[0] == (if outgoing then '-' else '+')
    ensures s[1..] == formatMoney(amount)
  {
    (if outgoing then "-" else "+") + formatMoney(amount)
  }

  /** `mapToTransferSummary`; `currentUserId` is the signed-in user's id,
      `None` when nobody is signed in. */
  function MapToTransferSummary(t: Transfer, currentUserId: Option<int>,
                                formatMoney: int -> string, formatDate: Stamp -> string): (s: TransferSummary)
    ensures s.direction == Outgoing <==> currentUserId == Some(t.fromAccount.user.id)
    ensures s.accountNumber == (if s.direction == Outgoing then t.toAccount.accountNumber else t.fromAccount.accountNumber)
    ensures s.description == (if Truthy(t.description) then t.description.value else NoDescription)
    ensures s.description != ""
    ensures s.id == t.id && s.amount == t.amount && s.date == t.createdAt && s.status == t.status
    ensures |s.displayAmount| > 0 && s.displayAmount[0] == (if s.direction == Outgoing then '-' else '+')
    ensures s.displayDate == formatDate(t.createdAt)
  {
    var outgoing := currentUserId.Some? && t.fromAccount.user.id == currentUserId.value;
    TransferSummary(
      t.id, t.amount, OrElse(t.description, NoDescription), t.createdAt,
      if outgoing then Outgoing else Incoming,
      if outgoing then t.toAccount.accountNumber else t.fromAccount.accountNumber,
      t.status, FormatAmount(t.amount, outgoing, formatMoney), formatDate(t.createdAt))
  }

  /** Signed out, every transfer reads as incoming from its source. */
  lemma SignedOutSeesIncoming(t: Transfer, formatMoney: int -> string, formatDate: Stamp -> string)
    ensures MapToTransferSummary(t, None, formatMoney, formatDate).direction == Incoming
    ensures MapToTransferSummary(t, None, formatMoney, formatDate).accountNumber == t.fromAccount.accountNumber
  {
  }

  /** `validateTransfer`: the messages of the checks that fail, in the order
      the source makes them. */
  function ValidateTransfer(req: TransferRequest, userAccounts: seq<Account>): (errors: seq<string>)
    ensures SameAccountError in errors <==> req.fromAccountNumber == req.toAccountNumber
    ensures NonPositiveError in errors <==> req.amount <= 0
    ensures InsufficientError in errors <==>
              var src := FindAccount(userAccounts, req.fromAccountNumber);
              src.Some? && src.value.balance < req.amount
    ensures |errors| == (if req.fromAccountNumber == req.toAccountNumber then 1 else 0)
                      + (if req.amount <= 0 then 1 else 0)
                      + (var src := FindAccount(userAccounts, req.fromAccountNumber);
                         if src.Some? && src.value.balance < req.amount then 1 else 0)
    ensures SameAccountError in errors ==> errors[0] == SameAccountError
    ensures InsufficientError in errors ==> errors[|errors| - 1] == InsufficientError
  {
    var src := FindAccount(userAccounts, req.fromAccountNumber);
    (if req.fromAccountNumber == req.toAccountNumber then [SameAccountError] else [])
    + (if req.amount <= 0 then [NonPositiveError] else [])
    + (if src.Some? && src.value.balance < req.amount then [InsufficientError] else [])
  }

  /** The request passes exactly when no check fails; with account numbers
      unique among the user's accounts, the balance check is about the one
      account carrying the source number. */
  lemma ValidateTransferAccepts(req: TransferRequest, userAccounts: seq<Account>)
    requires forall i, j :: 0 <= i < j < |userAccounts| ==> userAccounts[i].accountNumber != userAccounts[j].accountNumber
    ensures ValidateTransfer(req, userAccounts) == [] <==>
              && req.fromAccountNumber != req.toAccountNumber
              && req.amount > 0
              && forall a :: a in userAccounts && a.accountNumber == req.fromAccountNumber ==>
                               a.balance >= req.amount
  {
    var src := FindAccount(userAccounts, req.fromAccountNumber);
    if src.Some? {
      FindAccountIsFirst(userAccounts, req.fromAccountNumber);
      forall a | a in userAccounts && a.accountNumber == req.fromAccountNumber
        ensures a == src.value
      {
        var i :| 0 <= i < |userAccounts| && userAccounts[i] == a;
        var k :| 0 <= k < |userAccounts| && userAccounts[k] == src.value;
        if i != k {
          assert false;
        }
      }
    }
    var e := ValidateTransfer(req, userAccounts);
    if e != [] {
      assert e[0] in e;
    }
  }
}
