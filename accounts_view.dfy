/** account.component.ts: the accounts page. It keeps the user's accounts
    (marked with whether each is the main one), a summary of their balances,
    the sort criterion and direction, and the loading flags. Balances are
    integer cents, so the source's threshold of 100 (euros) is 10000 here. */
module AccountsView {
  import opened Common
  import opened Http
  import opened Domain
  import opened Sorting
  import opened Notifications

  const LowBalanceThreshold := 100 * 100
  const LoadFailure := "Impossible de charger vos comptes"
  const RefreshTitle := "Actualisation"
  const RefreshMessage := "Comptes mis à jour"
  const ErrorTitle := "Erreur"

  /** `AccountWithStats` without its simulated (random) figures. */
  datatype AccountWithStats = AccountWithStats(account: Account, isMainAccount: bool)

  function Balance(a: AccountWithStats): int { a.account.balance }

  predicate IsActive(a: AccountWithStats) { a.account.balance >= 0 }

  predicate IsInactive(a: AccountWithStats) { a.account.balance < 0 }

  /** `Math.max(...s)` of a non-empty list. */
  function MaxOf(s: seq<int>): (m: int)
    requires |s| > 0
    ensures m in s
    ensures forall x :: x in s ==> x <= m
  {
    if |s| == 1 then s[0]
    else
      var rest := MaxOf(s[1..]);
      assert forall x :: x in s ==> x == s[0] || x in s[1..];
      if s[0] >= rest then s[0] else rest
  }

  /** `Math.min(...s)` of a non-empty list. */
  function MinOf(s: seq<int>): (m: int)
    requires |s| > 0
    ensures m in s
    ensures forall x :: x in s ==> m <= x
  {
    if |s| == 1 then s[0]
    else
      var rest := MinOf(s[1..]);
      assert forall x :: x in s ==> x == s[0] || x in s[1..];
      if s[0] <= rest then s[0] else rest
  }

  /** `enrichAccountsWithStats`, deterministic part: an account is the main
      one when it comes first or carries the highest balance. */
  function Enrich(accounts: seq<Account>): (r: seq<AccountWithStats>)
    ensures |r| == |accounts|
    ensures forall i :: 0 <= i < |r| ==> r[i].account == accounts[i]
    ensures forall i :: 0 <= i < |r| ==>
              (r[i].isMainAccount <==> i == 0 || forall a :: a in accounts ==> a.balance <= accounts[i].balance)
  {
    if accounts == [] then []
    else
      var balances := seq(|accounts|, k requires 0 <= k < |accounts| => accounts[k].balance);
      var highest := MaxOf(balances);
      AtHighest(accounts, balances, highest);
      seq(|accounts|, i requires 0 <= i < |accounts| =>
          AccountWithStats(accounts[i], i == 0 || accounts[i].balance == highest))
  }

  /** An account carries the highest balance exactly when no account has
      more. */
  lemma AtHighest(accounts: seq<Account>, balances: seq<int>, highest: int)
    requires accounts != [] && |balances| == |accounts|
    requires forall k :: 0 <= k < |accounts| ==> balances[k] == accounts[k].balance
    requires highest == MaxOf(balances)
    ensures forall i :: 0 <= i < |accounts| ==>
              (accounts[i].balance == highest <==> forall a :: a in accounts ==> a.balance <= accounts[i].balance)
  {
    forall a | a in accounts ensures a.balance <= highest {
      var k :| 0 <= k < |accounts| && accounts[k] == a;
      assert balances[k] in balances;
    }
    var m :| 0 <= m < |balances| && balances[m] == highest;
    assert accounts[m] in accounts;
  }

  datatype Summary = Summary(
    totalBalance: int,
    activeAccountsCount: nat,
    inactiveAccountsCount: nat,
    highestBalance: int,
    lowestBalance: int,
    averageBalance: real)

  const EmptySummary := Summary(0, 0, 0, 0, 0, 0.0)

  /** Every account is active or inactive, never both. */
  lemma {:induction false} ActiveInactiveSplit(s: seq<AccountWithStats>)
    ensures CountIf(s, IsActive) + CountIf(s, IsInactive) == |s|
  {
    if s != [] {
      ActiveInactiveSplit(s[1..]);
    }
  }

  /** The balances of the accounts, in order. */
  function Balances(s: seq<AccountWithStats>): (b: seq<int>)
    ensures |b| == |s| && forall i :: 0 <= i < |s| ==> b[i] == s[i].account.balance
  {
    seq(|s|, i requires 0 <= i < |s| => s[i].account.balance)
  }

  /** `total / n` over the reals. */
  function Average(total: int, n: int): real
    requires n > 0
  {
    total as real / n as real
  }

  lemma AverageRestoresTotal(total: int, n: int)
    requires n > 0
    ensures Average(total, n) * (n as real) == total as real
  {
  }

  /** The extreme balances are balances of the list and bound all of them. */
  lemma ExtremesBound(s: seq<AccountWithStats>)
    requires s != []
    ensures var b := Balances(s);
      && (exists i :: 0 <= i < |s| && s[i].account.balance == MaxOf(b))
      && (exists i :: 0 <= i < |s| && s[i].account.balance == MinOf(b))
      && (forall i :: 0 <= i < |s| ==> MinOf(b) <= s[i].account.balance <= MaxOf(b))
  {
    var b := Balances(s);
    var hi :| 0 <= hi < |b| && b[hi] == MaxOf(b);
    var lo :| 0 <= lo < |b| && b[lo] == MinOf(b);
    assert s[hi].account.balance == MaxOf(b);
    assert s[lo].account.balance == MinOf(b);
    forall i | 0 <= i < |s| ensures MinOf(b) <= s[i].account.balance <= MaxOf(b) {
      assert b[i] in b;
    }
  }

  /** `calculateSummary`'s figures for a list of accounts. */
  function SummaryOf(s: seq<AccountWithStats>): (r: Summary)
    ensures s == [] ==> r == EmptySummary
    ensures s != [] ==>
              && r.totalBalance == SumOf(s, Balance)
              && r.activeAccountsCount == |Filter(s, IsActive)|
              && r.inactiveAccountsCount == |Filter(s, IsInactive)|
              && r.activeAccountsCount + r.inactiveAccountsCount == |s|
              && (exists i :: 0 <= i < |s| && s[i].account.balance == r.highestBalance)
              && (exists i :: 0 <= i < |s| && s[i].account.balance == r.lowestBalance)
              && (forall i :: 0 <= i < |s| ==> r.lowestBalance <= s[i].account.balance <= r.highestBalance)
    ensures s != [] ==> r.averageBalance == Average(r.totalBalance, |s|)
  {
    if s == [] then EmptySummary
    else
      ActiveInactiveSplit(s);
      ExtremesBound(s);
      var total := SumOf(s, Balance);
      Summary(total, CountIf(s, IsActive), CountIf(s, IsInactive),
              MaxOf(Balances(s)), MinOf(Balances(s)), Average(total, |s|))
  }

  /** `getAccountStatusClass`. */
  function StatusClass(a: AccountWithStats): (c: string)
    ensures c == "negative" <==> a.account.balance < 0
    ensures c == "low" <==> 0 <= a.account.balance < LowBalanceThreshold
    ensures c == "primary" <==> a.account.balance >= LowBalanceThreshold && a.isMainAccount
    ensures c == "positive" <==> a.account.balance >= LowBalanceThreshold && !a.isMainAccount
  {
    if a.account.balance < 0 then "negative"
    else if a.account.balance < LowBalanceThreshold then "low"
    else if a.isMainAccount then "primary"
    else "positive"
  }

  /** `getAccountStatusText`. */
  function StatusText(a: AccountWithStats): (t: string)
    ensures t in {"Solde négatif", "Solde faible", "Compte principal", "Actif"}
  {
    if a.account.balance < 0 then "Solde négatif"
    else if a.account.balance < LowBalanceThreshold then "Solde faible"
    else if a.isMainAccount then "Compte principal"
    else "Actif"
  }

  /** The text that goes with each status class. */
  function TextForClass(c: string): string {
    match c
    case "negative" => "Solde négatif"
    case "low" => "Solde faible"
    case "primary" => "Compte principal"
    case _ => "Actif"
  }

  /** The status text follows the same order of tests as the class. */
  lemma StatusTextMatchesClass(a: AccountWithStats)
    ensures StatusText(a) == TextForClass(StatusClass(a))
  {
  }

  /** `getBalancePercentage` against the summary's total. */
  function BalancePercentage(balance: int, total: int): (p: real)
    ensures total == 0 ==> p == 0.0
    ensures total != 0 ==> p * (total as real) == (balance as real) * 100.0
  {
    if total == 0 then 0.0 else (balance as real / total as real) * 100.0
  }

  function SumOfPercentages(s: seq<AccountWithStats>, total: int): real {
    if s == [] then 0.0 else BalancePercentage(s[0].account.balance, total) + SumOfPercentages(s[1..], total)
  }

  lemma {:induction false} SumOfPercentagesScales(s: seq<AccountWithStats>, total: int)
    requires total != 0
    ensures SumOfPercentages(s, total) == (SumOf(s, Balance) as real / total as real) * 100.0
  {
    if s != [] {
      SumOfPercentagesScales(s[1..], total);
      var t := total as real;
      var b := s[0].account.balance as real;
      var rest := SumOf(s[1..], Balance) as real;
      assert (b / t) * 100.0 + (rest / t) * 100.0 == ((b + rest) / t) * 100.0;
    }
  }

  /** With a non-zero total, the accounts' percentages add up to 100. */
  lemma PercentagesAddUp(s: seq<AccountWithStats>)
    requires SumOf(s, Balance) != 0
    ensures SumOfPercentages(s, SumOf(s, Balance)) == 100.0
  {
    SumOfPercentagesScales(s, SumOf(s, Balance));
    var t := SumOf(s, Balance) as real;
    assert t != 0.0;
    assert t / t == 1.0;
  }

  datatype Criterion = ByBalance | ByDate | ByName
  datatype SortDirection = Asc | Desc

  function Flip(d: SortDirection): (e: SortDirection)
    ensures e != d
  {
    if d == Asc then Desc else Asc
  }

  /** The comparator `sortAccounts` builds, as the key it compares by;
      `nameRank` is the (locale-dependent) order of account numbers. */
  function SortKey(criterion: Criterion, dir: SortDirection, nameRank: string -> int): AccountWithStats -> int {
    (a: AccountWithStats) =>
      var k := match criterion
        case ByBalance => a.account.balance
        case ByDate => a.account.createdAt.millis
        case ByName => nameRank(a.account.accountNumber);
      if dir == Asc then k else -k
  }

  /** Sorting by balance orders the balances in the chosen direction. */
  lemma BalanceSortOrders(s: seq<AccountWithStats>, dir: SortDirection, nameRank: string -> int)
    ensures var r := SortByKey(s, SortKey(ByBalance, dir, nameRank));
      && multiset(r) == multiset(s)
      && forall i, j :: 0 <= i < j < |r| ==>
           if dir == Asc then r[i].account.balance <= r[j].account.balance
           else r[i].account.balance >= r[j].account.balance
  {
    SortByKeyOrdered(s, SortKey(ByBalance, dir, nameRank));
  }

  class AccountComponent {
    var accounts: seq<AccountWithStats>
    var originalAccounts: seq<Account>
    var summary: Summary
    var isLoading: bool
    var isRefreshing: bool
    var hasError: bool
    var errorMessage: string
    var sortBy: Criterion
    var sortDirection: SortDirection
    /** How many account loads have been requested. */
    var loadRequests: nat
    const notifier: NotificationService
    const nameRank: string -> int

    constructor (notifier: NotificationService, nameRank: string -> int)
      ensures this.notifier == notifier && this.nameRank == nameRank
      ensures accounts == [] && originalAccounts == [] && summary == EmptySummary
      ensures isLoading && !isRefreshing && !hasError && errorMessage == ""
      ensures sortBy == ByBalance && sortDirection == Desc && loadRequests == 0
    {
      this.notifier := notifier;
      this.nameRank := nameRank;
      accounts := [];
      originalAccounts := [];
      summary := EmptySummary;
      isLoading := true;
      isRefreshing := false;
      hasError := false;
      errorMessage := "";
      sortBy := ByBalance;
      sortDirection := Desc;
      loadRequests := 0;
    }

    method CalculateSummary()
      modifies this
      ensures summary == SummaryOf(accounts)
      ensures accounts == old(accounts) && sortBy == old(sortBy) && sortDirection == old(sortDirection)
      ensures isLoading == old(isLoading) && isRefreshing == old(isRefreshing) && hasError == old(hasError)
      ensures errorMessage == old(errorMessage) && originalAccounts == old(originalAccounts)
      ensures loadRequests == old(loadRequests)
    {
      summary := SummaryOf(accounts);
    }

    /** `sortAccounts`: a sort in place by the current criterion. */
    method SortAccounts()
      modifies this
      ensures accounts == SortByKey(old(accounts), SortKey(sortBy, sortDirection, nameRank))
      ensures multiset(accounts) == multiset(old(accounts))
      ensures sortBy == ByBalance ==> forall i, j :: 0 <= i < j < |accounts| ==>
                if sortDirection == Asc then accounts[i].account.balance <= accounts[j].account.balance
                else accounts[i].account.balance >= accounts[j].account.balance
      ensures summary == old(summary) && sortBy == old(sortBy) && sortDirection == old(sortDirection)
      ensures isLoading == old(isLoading) && isRefreshing == old(isRefreshing) && hasError == old(hasError)
      ensures errorMessage == old(errorMessage) && originalAccounts == old(originalAccounts)
      ensures loadRequests == old(loadRequests)
    {
      if sortBy == ByBalance {
        BalanceSortOrders(accounts, sortDirection, nameRank);
      }
      accounts := SortByKey(accounts, SortKey(sortBy, sortDirection, nameRank));
    }

    /** `setSortBy`: the same criterion flips the direction; another one is
        taken with the direction reset to descending. */
    method SetSortBy(criterion: Criterion)
      modifies this
      ensures sortBy == criterion
      ensures sortDirection == if old(sortBy) == criterion then Flip(old(sortDirection)) else Desc
      ensures accounts == SortByKey(old(accounts), SortKey(sortBy, sortDirection, nameRank))
      ensures summary == old(summary) && originalAccounts == old(originalAccounts)
      ensures isLoading == old(isLoading) && isRefreshing == old(isRefreshing) && hasError == old(hasError)
      ensures errorMessage == old(errorMessage) && loadRequests == old(loadRequests)
    {
      if sortBy == criterion {
        sortDirection := Flip(sortDirection);
      } else {
        sortBy := criterion;
        sortDirection := Desc;
      }
      SortAccounts();
    }

    /** `loadAccounts` up to the request: the request itself is recorded. */
    method LoadAccounts()
      modifies this
      ensures isLoading && !hasError && loadRequests == old(loadRequests) + 1
      ensures accounts == old(accounts) && summary == old(summary) && originalAccounts == old(originalAccounts)
      ensures isRefreshing == old(isRefreshing) && errorMessage == old(errorMessage)
      ensures sortBy == old(sortBy) && sortDirection == old(sortDirection)
    {
      isLoading := true;
      hasError := false;
      loadRequests := loadRequests + 1;
    }

    /** `refreshAccounts`: nothing at all happens while a load is running. */
    method RefreshAccounts()
      modifies this, notifier
      ensures old(isLoading) ==>
                && accounts == old(accounts) && summary == old(summary) && loadRequests == old(loadRequests)
                && isLoading == old(isLoading) && isRefreshing == old(isRefreshing) && hasError == old(hasError)
                && notifier.notifications == old(notifier.notifications) && notifier.issued == old(notifier.issued)
      ensures !old(isLoading) ==>
                && isRefreshing && isLoading && !hasError && loadRequests == old(loadRequests) + 1
                && accounts == old(accounts) && summary == old(summary)
                && notifier.issued == old(notifier.issued) + 1
                && notifier.notifications == old(notifier.notifications)
                     + [Stamped(Draft(Info, RefreshTitle, RefreshMessage, None), notifier.idSource(old(notifier.issued)))]
      ensures sortBy == old(sortBy) && sortDirection == old(sortDirection)
      ensures errorMessage == old(errorMessage) && originalAccounts == old(originalAccounts)
    {
      if isLoading {
        return;
      }
      isRefreshing := true;
      LoadAccounts();
      notifier.NotifyInfo(RefreshTitle, RefreshMessage, None);
    }

    /** The `next` callback of the load. */
    method Adopt(list: seq<Account>)
      modifies this
      ensures originalAccounts == list && !hasError
      ensures summary == SummaryOf(Enrich(list))
      ensures accounts == SortByKey(Enrich(list), SortKey(sortBy, sortDirection, nameRank))
      ensures sortBy == old(sortBy) && sortDirection == old(sortDirection) && loadRequests == old(loadRequests)
      ensures isLoading == old(isLoading) && isRefreshing == old(isRefreshing) && errorMessage == old(errorMessage)
    {
      originalAccounts := list;
      accounts := Enrich(list);
      CalculateSummary();
      SortAccounts();
      hasError := false;
    }

    /** The load settles: on success the accounts are enriched, summarised
        and then sorted; on failure an error is flagged and notified. Either
        way `finalize` clears both loading flags. */
    method SettleLoad(r: Result<seq<Account>>)
      modifies this, notifier
      ensures !isLoading && !isRefreshing
      ensures r.Ok? ==>
                && originalAccounts == r.value && !hasError
                && summary == SummaryOf(Enrich(r.value))
                && accounts == SortByKey(Enrich(r.value), SortKey(sortBy, sortDirection, nameRank))
                && errorMessage == old(errorMessage)
                && notifier.notifications == old(notifier.notifications) && notifier.issued == old(notifier.issued)
      ensures r.Fail? ==>
                && hasError && errorMessage == LoadFailure
                && accounts == old(accounts) && summary == old(summary) && originalAccounts == old(originalAccounts)
                && notifier.issued == old(notifier.issued) + 1
                && notifier.notifications == old(notifier.notifications)
                     + [Stamped(Draft(Error, ErrorTitle, LoadFailure, None), notifier.idSource(old(notifier.issued)))]
      ensures sortBy == old(sortBy) && sortDirection == old(sortDirection) && loadRequests == old(loadRequests)
    {
      match r {
        case Ok(list) =>
          Adopt(list);
        case Fail(_) =>
          hasError := true;
          errorMessage := LoadFailure;
          notifier.NotifyError(ErrorTitle, LoadFailure, None);
      }
      isLoading := false;
      isRefreshing := false;
    }
  }
}
