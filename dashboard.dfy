/** dashboard.component.ts: the dashboard's figures over the user's accounts
    and transfer summaries: the stats block, the five most recent transfers,
    the most frequent destination, this month's totals, the greeting and the
    status colours. The clock is the `now` parameter. */
module Dashboard {
  import opened Common
  import opened Http
  import opened Domain
  import opened Sorting
  import opened Notifications
  import opened TransferGateway

  const RecentTransfersLimit := 5
  const LoadFailure := "Impossible de charger les données du tableau de bord"
  const ErrorTitle := "Erreur"

  datatype Stats = Stats(
    totalBalance: int,
    accountsCount: nat,
    transfersThisMonth: nat,
    lastTransactionDate: Option<Stamp>)

  /** Same calendar month of the same year as `now`. */
  predicate InMonth(d: Stamp, now: Stamp) {
    d.month == now.month && d.year == now.year
  }

  function Amount(t: TransferSummary): int { t.amount }

  /** The comparator `(a, b) => b.date - a.date` as the key it compares by. */
  function NewestFirst(t: TransferSummary): int { -t.date.millis }

  /** The head of the newest-first order carries the latest date. */
  lemma {:induction false} NewestFirstHeadIsLatest(s: seq<TransferSummary>)
    requires s != []
    ensures SortByKey(s, NewestFirst)[0] in s
    ensures forall t :: t in s ==> t.date.millis <= SortByKey(s, NewestFirst)[0].date.millis
  {
    var r := SortByKey(s, NewestFirst);
    SortByKeyOrdered(s, NewestFirst);
    assert r[0] in multiset(r);
    forall t | t in s ensures t.date.millis <= r[0].date.millis {
      assert t in multiset(r);
      var k :| 0 <= k < |r| && r[k] == t;
      if k > 0 {
        assert NewestFirst(r[0]) <= NewestFirst(r[k]);
      }
    }
  }

  /** `prepareRecentTransfers`: the newest-first order cut after five. */
  function RecentTransfers(all: seq<TransferSummary>): (r: seq<TransferSummary>)
    ensures |r| == if |all| < RecentTransfersLimit then |all| else RecentTransfersLimit
    ensures forall t :: t in r ==> t in all
    ensures multiset(r) <= multiset(all)
    ensures forall i, j :: 0 <= i < j < |r| ==> r[i].date.millis >= r[j].date.millis
  {
    var n := if |all| < RecentTransfersLimit then |all| else RecentTransfersLimit;
    var sorted := SortByKey(all, NewestFirst);
    SortByKeyOrdered(all, NewestFirst);
    SortByKeyMembers(all, NewestFirst);
    var r := sorted[..n];
    NewestPrefix(all, sorted, n, r);
    assert sorted == r + sorted[n..];
    assert multiset(sorted) == multiset(r) + multiset(sorted[n..]);
    r
  }

  /** Any prefix of a newest-first arrangement of the list holds transfers of
      the list, newest first. */
  lemma NewestPrefix(all: seq<TransferSummary>, sorted: seq<TransferSummary>, n: nat, p: seq<TransferSummary>)
    requires n <= |sorted| && p == sorted[..n]
    requires Ordered(sorted, NewestFirst)
    requires forall t :: t in sorted <==> t in all
    ensures forall t :: t in p ==> t in all
    ensures forall i, j :: 0 <= i < j < |p| ==> p[i].date.millis >= p[j].date.millis
  {
    forall t | t in p ensures t in all {
      var k :| 0 <= k < |p| && p[k] == t;
      assert sorted[k] == t;
    }
    forall i, j | 0 <= i < j < |p| ensures p[i].date.millis >= p[j].date.millis {
      assert p[i] == sorted[i] && p[j] == sorted[j];
      assert NewestFirst(sorted[i]) <= NewestFirst(sorted[j]);
    }
  }

  /** Every transfer left out of the recent list is no newer than all of its
      entries. */
  lemma RecentAreNewest(all: seq<TransferSummary>)
    ensures forall k :: RecentTransfersLimit <= k < |all| ==>
              forall i :: 0 <= i < RecentTransfersLimit ==>
                SortByKey(all, NewestFirst)[k].date.millis <= RecentTransfers(all)[i].date.millis
  {
    SortByKeyOrdered(all, NewestFirst);
    var sorted := SortByKey(all, NewestFirst);
    forall k, i | RecentTransfersLimit <= k < |all| && 0 <= i < RecentTransfersLimit
      ensures sorted[k].date.millis <= RecentTransfers(all)[i].date.millis
    {
      assert RecentTransfers(all)[i] == sorted[i];
      assert NewestFirst(sorted[i]) <= NewestFirst(sorted[k]);
    }
  }

  /** `getGreeting` for the hour of the day. */
  function Greeting(hour: int): (g: string)
    ensures g == "Bonjour" <==> 6 <= hour < 12
    ensures g == "Bon après-midi" <==> 12 <= hour < 18
    ensures g == "Bonsoir" <==> 18 <= hour < 22
    ensures g == "Bonne nuit" <==> hour < 6 || hour >= 22
  {
    if hour < 6 then "Bonne nuit"
    else if hour < 12 then "Bonjour"
    else if hour < 18 then "Bon après-midi"
    else if hour < 22 then "Bonsoir"
    else "Bonne nuit"
  }

  /** `getTransferStatusColor`. */
  function StatusColor(status: TransferStatus): (c: string)
    ensures c == "success" <==> status == COMPLETED
    ensures c == "warning" <==> status == PENDING
    ensures c == "danger" <==> status == FAILED
    ensures c == "secondary" <==> status == CANCELLED
  {
    match status
    case COMPLETED => "success"
    case PENDING => "warning"
    case FAILED => "danger"
    case _ => "secondary"
  }

  predicate IncomingInMonth(t: TransferSummary, now: Stamp) {
    t.direction == Incoming && InMonth(t.date, now)
  }

  predicate OutgoingInMonth(t: TransferSummary, now: Stamp) {
    t.direction == Outgoing && InMonth(t.date, now)
  }

  /** `getTotalIncomingThisMonth`. */
  function TotalIncomingThisMonth(all: seq<TransferSummary>, now: Stamp): int {
    SumOf(Filter(all, (t: TransferSummary) => IncomingInMonth(t, now)), Amount)
  }

  /** `getTotalOutgoingThisMonth`. */
  function TotalOutgoingThisMonth(all: seq<TransferSummary>, now: Stamp): int {
    SumOf(Filter(all, (t: TransferSummary) => OutgoingInMonth(t, now)), Amount)
  }

  /** Every transfer is incoming or outgoing: the two monthly totals add up
      to the total of this month's transfers. */
  lemma {:induction false} MonthTotalsSplit(all: seq<TransferSummary>, now: Stamp)
    ensures TotalIncomingThisMonth(all, now) + TotalOutgoingThisMonth(all, now)
            == SumOf(Filter(all, (t: TransferSummary) => InMonth(t.date, now)), Amount)
  {
    if all != [] {
      var x := all[0];
      var tail := all[1..];
      MonthTotalsSplit(tail, now);
      var pin := (t: TransferSummary) => IncomingInMonth(t, now);
      var pout := (t: TransferSummary) => OutgoingInMonth(t, now);
      var pall := (t: TransferSummary) => InMonth(t.date, now);
      SumOfAppend(if pin(x) then [x] else [], Filter(tail, pin), Amount);
      SumOfAppend(if pout(x) then [x] else [], Filter(tail, pout), Amount);
      SumOfAppend(if pall(x) then [x] else [], Filter(tail, pall), Amount);
    }
  }

  // ---- the most frequent destination ----

  /** The counterparts of the outgoing transfers, in order. */
  function Destinations(all: seq<TransferSummary>): (d: seq<string>)
    ensures |d| <= |all|
  {
    var out := Filter(all, (t: TransferSummary) => t.direction == Outgoing);
    seq(|out|, i requires 0 <= i < |out| => out[i].accountNumber)
  }

  /** How often `k` occurs in `s`. */
  function Occurrences(s: seq<string>, k: string): nat {
    if s == [] then 0
    else Occurrences(s[..|s| - 1], k) + (if s[|s| - 1] == k then 1 else 0)
  }

  /** The distinct elements of `s` in order of first occurrence: the order in
      which `accountCounts` receives its keys. */
  function FirstOccurrences(s: seq<string>): (r: seq<string>)
    ensures forall k :: k in r <==> k in s
    ensures forall i, j :: 0 <= i < j < |r| ==> r[i] != r[j]
  {
    if s == [] then []
    else
      var p := FirstOccurrences(s[..|s| - 1]);
      assert forall k :: k in s <==> k in s[..|s| - 1] || k == s[|s| - 1] by {
        assert s == s[..|s| - 1] + [s[|s| - 1]];
      }
      if s[|s| - 1] in p then p else p + [s[|s| - 1]]
  }

  /** The `Object.entries(...).forEach` scan over the keys seen so far: the
      running winner and its count, replaced only by a strictly larger
      count. */
  function Scan(keys: seq<string>, counts: map<string, nat>): (best: (string, nat))
    requires forall k :: k in keys ==> k in counts
  {
    if keys == [] then ("", 0)
    else
      var prev := Scan(keys[..|keys| - 1], counts);
      var k := keys[|keys| - 1];
      if counts[k] > prev.1 then (k, counts[k]) else prev
  }

  /** The scan ends with the first key of maximal count, when some count is
      positive. */
  lemma {:induction false} ScanFindsFirstMaximum(keys: seq<string>, counts: map<string, nat>)
    requires forall k :: k in keys ==> k in counts && counts[k] > 0
    ensures keys == [] ==> Scan(keys, counts) == ("", 0)
    ensures keys != [] ==>
              exists i :: 0 <= i < |keys| && keys[i] == Scan(keys, counts).0
                          && counts[keys[i]] == Scan(keys, counts).1
                          && (forall j :: 0 <= j < i ==> counts[keys[j]] < counts[keys[i]])
                          && (forall j :: 0 <= j < |keys| ==> counts[keys[j]] <= counts[keys[i]])
  {
    if keys != [] {
      var init := keys[..|keys| - 1];
      var k := keys[|keys| - 1];
      ScanFindsFirstMaximum(init, counts);
      var prev := Scan(init, counts);
      if init == [] {
        assert keys == [k];
      } else {
        var i :| 0 <= i < |init| && init[i] == prev.0 && counts[init[i]] == prev.1
                 && (forall j :: 0 <= j < i ==> counts[init[j]] < counts[init[i]])
                 && (forall j :: 0 <= j < |init| ==> counts[init[j]] <= counts[init[i]]);
        if counts[k] > prev.1 {
          assert keys[|keys| - 1] == Scan(keys, counts).0;
          forall j | 0 <= j < |keys| - 1 ensures counts[keys[j]] < counts[k] {
            assert keys[j] == init[j];
          }
        } else {
          assert keys[i] == init[i];
          forall j | 0 <= j < |keys| ensures counts[keys[j]] <= counts[keys[i]] {
            if j < |keys| - 1 { assert keys[j] == init[j]; }
          }
          forall j | 0 <= j < i ensures counts[keys[j]] < counts[keys[i]] {
            assert keys[j] == init[j];
          }
        }
      }
    }
  }

  /** The counting dictionary after a prefix of the destinations. */
  ghost predicate CountsOf(counts: map<string, nat>, keys: seq<string>, s: seq<string>) {
    && keys == FirstOccurrences(s)
    && (forall k :: k in counts <==> k in s)
    && (forall k :: k in counts ==> counts[k] == Occurrences(s, k))
  }

  lemma OccursOnce(s: seq<string>, k: string)
    requires k in s
    ensures Occurrences(s, k) > 0
    decreases |s|
  {
    if s[|s| - 1] != k {
      assert s == s[..|s| - 1] + [s[|s| - 1]];
      OccursOnce(s[..|s| - 1], k);
    }
  }

  /** `getMostFrequentDestination`: `None` without outgoing transfers (or
      when the winning number is the empty string, `"" || null`); otherwise
      a destination of maximal count, the first in order of first occurrence
      among those that tie. */
  method MostFrequentDestination(all: seq<TransferSummary>) returns (r: Option<string>)
    ensures Destinations(all) == [] ==> r == None
    ensures r.Some? ==> r.value != "" && r.value in Destinations(all)
    ensures r.Some? ==> forall k :: Occurrences(Destinations(all), k) <= Occurrences(Destinations(all), r.value)
    ensures r.Some? ==> forall k :: k in Destinations(all) && Occurrences(Destinations(all), k) == Occurrences(Destinations(all), r.value) ==>
              ComesFirst(FirstOccurrences(Destinations(all)), r.value, k)
    ensures r.None? && Destinations(all) != [] ==>
              && "" in Destinations(all)
              && (forall m :: Occurrences(Destinations(all), m) <= Occurrences(Destinations(all), ""))
              && (forall k :: k in Destinations(all) && Occurrences(Destinations(all), k) == Occurrences(Destinations(all), "") ==>
                    ComesFirst(FirstOccurrences(Destinations(all)), "", k))
  {
    var d := Destinations(all);
    if |d| == 0 {
      return None;
    }
    var keys, counts := CountDestinations(d);
    var mostFrequent := PickMostFrequent(keys, counts);
    WinnerIsMaximal(d, counts);
    WinnerComesFirst(d, counts);
    r := if mostFrequent == "" then None else Some(mostFrequent);
  }

  /** The `forEach` that fills `accountCounts`. */
  method CountDestinations(d: seq<string>) returns (keys: seq<string>, counts: map<string, nat>)
    ensures CountsOf(counts, keys, d)
  {
    keys := [];
    counts := map[];
    for i := 0 to |d|
      invariant CountsOf(counts, keys, d[..i])
    {
      var n := d[i];
      assert d[..i + 1] == d[..i] + [n];
      assert d[..i + 1][..i] == d[..i];
      assert forall k :: Occurrences(d[..i + 1], k) == Occurrences(d[..i], k) + (if n == k then 1 else 0);
      if n in counts {
        counts := counts[n := counts[n] + 1];
      } else {
        NotInDNoOccurrence(d[..i], n);
        keys := keys + [n];
        counts := counts[n := 1];
      }
    }
    assert d[..|d|] == d;
  }

  /** The `Object.entries(accountCounts).forEach` with the running maximum. */
  method PickMostFrequent(keys: seq<string>, counts: map<string, nat>) returns (mostFrequent: string)
    requires forall k :: k in keys ==> k in counts
    ensures mostFrequent == Scan(keys, counts).0
  {
    mostFrequent := "";
    var maxCount := 0;
    for j := 0 to |keys|
      invariant (mostFrequent, maxCount) == Scan(keys[..j], counts)
    {
      assert keys[..j + 1][..j] == keys[..j];
      var k := keys[j];
      if counts[k] > maxCount {
        maxCount := counts[k];
        mostFrequent := k;
      }
    }
    assert keys[..|keys|] == keys;
  }

  /** `a` comes no later than `b` in `keys`. */
  ghost predicate ComesFirst(keys: seq<string>, a: string, b: string) {
    exists i, j :: 0 <= i <= j < |keys| && keys[i] == a && keys[j] == b
  }

  /** The winner of the scan over the first occurrences of `d`, with the
      facts about it the method's contract needs. */
  lemma ScanWinner(d: seq<string>, counts: map<string, nat>) returns (i: nat)
    requires d != []
    requires CountsOf(counts, FirstOccurrences(d), d)
    ensures var keys := FirstOccurrences(d);
      && i < |keys| && keys[i] == Scan(keys, counts).0
      && (forall j :: 0 <= j < i ==> Occurrences(d, keys[j]) < Occurrences(d, keys[i]))
      && (forall j :: 0 <= j < |keys| ==> Occurrences(d, keys[j]) <= Occurrences(d, keys[i]))
  {
    var keys := FirstOccurrences(d);
    CountsArePositive(d, counts);
    assert d[0] in keys;
    i := FirstMaximumIndex(keys, counts);
    forall j | 0 <= j < |keys| ensures counts[keys[j]] == Occurrences(d, keys[j]) {
      assert keys[j] in keys;
    }
  }

  /** The position of the scan's winner among the keys. */
  lemma FirstMaximumIndex(keys: seq<string>, counts: map<string, nat>) returns (i: nat)
    requires keys != []
    requires forall k :: k in keys ==> k in counts && counts[k] > 0
    ensures i < |keys| && keys[i] == Scan(keys, counts).0
    ensures forall j :: 0 <= j < i ==> counts[keys[j]] < counts[keys[i]]
    ensures forall j :: 0 <= j < |keys| ==> counts[keys[j]] <= counts[keys[i]]
  {
    ScanFindsFirstMaximum(keys, counts);
    i :| 0 <= i < |keys| && keys[i] == Scan(keys, counts).0
         && counts[keys[i]] == Scan(keys, counts).1
         && (forall j :: 0 <= j < i ==> counts[keys[j]] < counts[keys[i]])
         && (forall j :: 0 <= j < |keys| ==> counts[keys[j]] <= counts[keys[i]]);
  }

  /** Every first occurrence is counted, with its positive number of
      occurrences. */
  lemma CountsArePositive(d: seq<string>, counts: map<string, nat>)
    requires CountsOf(counts, FirstOccurrences(d), d)
    ensures forall k :: k in FirstOccurrences(d) ==> k in counts && counts[k] == Occurrences(d, k) && counts[k] > 0
  {
    forall k | k in FirstOccurrences(d) ensures k in counts && counts[k] == Occurrences(d, k) && counts[k] > 0 {
      OccursOnce(d, k);
    }
  }

  /** The scan's winner is a destination no other destination outnumbers. */
  lemma WinnerIsMaximal(d: seq<string>, counts: map<string, nat>)
    requires d != []
    requires CountsOf(counts, FirstOccurrences(d), d)
    ensures var w := Scan(FirstOccurrences(d), counts).0;
      w in d && forall k :: Occurrences(d, k) <= Occurrences(d, w)
  {
    var keys := FirstOccurrences(d);
    var i := ScanWinner(d, counts);
    var w := keys[i];
    forall k ensures Occurrences(d, k) <= Occurrences(d, w) {
      if k in d {
        assert k in keys;
        var j :| 0 <= j < |keys| && keys[j] == k;
      } else {
        NotInDNoOccurrence(d, k);
      }
    }
  }

  /** Among the destinations that tie with the winner, the winner was seen
      first. */
  lemma WinnerComesFirst(d: seq<string>, counts: map<string, nat>)
    requires d != []
    requires CountsOf(counts, FirstOccurrences(d), d)
    ensures var w := Scan(FirstOccurrences(d), counts).0;
      forall k :: k in d && Occurrences(d, k) == Occurrences(d, w) ==> ComesFirst(FirstOccurrences(d), w, k)
  {
    var keys := FirstOccurrences(d);
    var i := ScanWinner(d, counts);
    var w := keys[i];
    forall k | k in d && Occurrences(d, k) == Occurrences(d, w)
      ensures ComesFirst(keys, w, k)
    {
      assert k in keys;
      var j :| 0 <= j < |keys| && keys[j] == k;
      if j < i {
        assert false;
      }
    }
  }

  lemma NotInDNoOccurrence(s: seq<string>, k: string)
    requires k !in s
    ensures Occurrences(s, k) == 0
    decreases |s|
  {
    if s != [] {
      assert s == s[..|s| - 1] + [s[|s| - 1]];
      NotInDNoOccurrence(s[..|s| - 1], k);
    }
  }

  class DashboardComponent {
    var accounts: seq<Account>
    var allTransfers: seq<TransferSummary>
    var recentTransfers: seq<TransferSummary>
    var stats: Stats
    var isLoading: bool
    var isRefreshing: bool
    var hasError: bool
    var errorMessage: string
    /** How many dashboard loads have been requested. */
    var loadRequests: nat
    const notifier: NotificationService

    constructor (notifier: NotificationService)
      ensures this.notifier == notifier
      ensures accounts == [] && allTransfers == [] && recentTransfers == []
      ensures stats == Stats(0, 0, 0, None)
      ensures isLoading && !isRefreshing && !hasError && errorMessage == "" && loadRequests == 0
    {
      this.notifier := notifier;
      accounts := [];
      allTransfers := [];
      recentTransfers := [];
      stats := Stats(0, 0, 0, None);
      isLoading := true;
      isRefreshing := false;
      hasError := false;
      errorMessage := "";
      loadRequests := 0;
    }

    /** `calculateStats`: the last transaction date is only written when
        there are transfers. */
    method CalculateStats(now: Stamp)
      modifies this
      ensures stats.totalBalance == SumOf(accounts, AccountBalance)
      ensures stats.accountsCount == |accounts|
      ensures stats.transfersThisMonth == |Filter(allTransfers, (t: TransferSummary) => InMonth(t.date, now))|
      ensures allTransfers == [] ==> stats.lastTransactionDate == old(stats.lastTransactionDate)
      ensures allTransfers != [] ==>
                && stats.lastTransactionDate.Some?
                && (exists t :: t in allTransfers && t.date == stats.lastTransactionDate.value)
                && forall t :: t in allTransfers ==> t.date.millis <= stats.lastTransactionDate.value.millis
      ensures accounts == old(accounts) && allTransfers == old(allTransfers) && recentTransfers == old(recentTransfers)
      ensures isLoading == old(isLoading) && isRefreshing == old(isRefreshing) && hasError == old(hasError)
      ensures errorMessage == old(errorMessage) && loadRequests == old(loadRequests)
    {
      var last := stats.lastTransactionDate;
      if |allTransfers| > 0 {
        NewestFirstHeadIsLatest(allTransfers);
        last := Some(SortByKey(allTransfers, NewestFirst)[0].date);
      }
      stats := Stats(SumOf(accounts, AccountBalance), |accounts|,
                     CountIf(allTransfers, (t: TransferSummary) => InMonth(t.date, now)), last);
    }

    method PrepareRecentTransfers()
      modifies this
      ensures recentTransfers == RecentTransfers(allTransfers)
      ensures accounts == old(accounts) && allTransfers == old(allTransfers) && stats == old(stats)
      ensures isLoading == old(isLoading) && isRefreshing == old(isRefreshing) && hasError == old(hasError)
      ensures errorMessage == old(errorMessage) && loadRequests == old(loadRequests)
    {
      recentTransfers := RecentTransfers(allTransfers);
    }

    /** `loadDashboardData` up to the request: the request itself is
        recorded. */
    method LoadDashboardData()
      modifies this
      ensures isLoading && !hasError && loadRequests == old(loadRequests) + 1
      ensures accounts == old(accounts) && allTransfers == old(allTransfers) && recentTransfers == old(recentTransfers)
      ensures stats == old(stats) && isRefreshing == old(isRefreshing) && errorMessage == old(errorMessage)
    {
      isLoading := true;
      hasError := false;
      loadRequests := loadRequests + 1;
    }

    /** `refreshData`: nothing happens while a load is running. */
    method RefreshData()
      modifies this
      ensures old(isLoading) ==>
                && isLoading && isRefreshing == old(isRefreshing) && hasError == old(hasError)
                && loadRequests == old(loadRequests)
      ensures !old(isLoading) ==> isLoading && isRefreshing && !hasError && loadRequests == old(loadRequests) + 1
      ensures accounts == old(accounts) && allTransfers == old(allTransfers) && recentTransfers == old(recentTransfers)
      ensures stats == old(stats) && errorMessage == old(errorMessage)
    {
      if isLoading {
        return;
      }
      isRefreshing := true;
      LoadDashboardData();
    }

    /** The `forkJoin` of both loads settles: on success the data is stored
        and processed; on failure an error is flagged and notified. Either
        way `finalize` clears both loading flags. */
    method SettleLoad(r: Result<(seq<Account>, seq<TransferSummary>)>, now: Stamp)
      modifies this, notifier
      ensures !isLoading && !isRefreshing
      ensures r.Ok? ==>
                && accounts == r.value.0 && allTransfers == r.value.1 && !hasError
                && stats.totalBalance == SumOf(accounts, AccountBalance)
                && stats.accountsCount == |accounts|
                && stats.transfersThisMonth == |Filter(allTransfers, (t: TransferSummary) => InMonth(t.date, now))|
                && (allTransfers == [] ==> stats.lastTransactionDate == old(stats.lastTransactionDate))
                && (allTransfers != [] ==>
                      && stats.lastTransactionDate.Some?
                      && (exists t :: t in allTransfers && t.date == stats.lastTransactionDate.value)
                      && forall t :: t in allTransfers ==> t.date.millis <= stats.lastTransactionDate.value.millis)
                && recentTransfers == RecentTransfers(allTransfers)
                && errorMessage == old(errorMessage)
                && notifier.notifications == old(notifier.notifications) && notifier.issued == old(notifier.issued)
      ensures r.Fail? ==>
                && hasError && errorMessage == LoadFailure
                && accounts == old(accounts) && allTransfers == old(allTransfers) && stats == old(stats)
                && recentTransfers == old(recentTransfers)
                && notifier.issued == old(notifier.issued) + 1
                && notifier.notifications == old(notifier.notifications)
                     + [Stamped(Draft(Error, ErrorTitle, LoadFailure, None), notifier.idSource(old(notifier.issued)))]
      ensures loadRequests == old(loadRequests)
    {
      match r {
        case Ok(data) =>
          accounts := data.0;
          allTransfers := data.1;
          CalculateStats(now);
          PrepareRecentTransfers();
          hasError := false;
        case Fail(_) =>
          hasError := true;
          errorMessage := LoadFailure;
          notifier.NotifyError(ErrorTitle, LoadFailure, None);
      }
      isLoading := false;
      isRefreshing := false;
    }
  }
}
