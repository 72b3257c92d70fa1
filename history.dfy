/** transfer-history.component.ts: the transfer list filtered by direction
    ('all', 'incoming' or 'outgoing') and by a search term matched, without
    regard to ASCII case, against the description and the account number. */
module History {
  import opened Common
  import opened Http
  import opened Notifications
  import opened TransferGateway

  const AllFilter := "all"

  /** The `type` field as the template's filter values spell it. */
  function TypeName(d: Direction): string {
    match d
    case Incoming => "incoming"
    case Outgoing => "outgoing"
  }

  predicate HasType(t: TransferSummary, filter: string) {
    TypeName(t.direction) == filter
  }

  /** The search test of `applyFilters`, for a lowercased term. */
  predicate MatchesTerm(t: TransferSummary, term: string) {
    Contains(Lower(t.description), term) || Contains(Lower(t.accountNumber), term)
  }

  /** What a transfer must satisfy to be listed under `filter` and `search`. */
  predicate Listed(t: TransferSummary, filter: string, search: string) {
    && (filter == AllFilter || HasType(t, filter))
    && (search == "" || MatchesTerm(t, Lower(search)))
  }

  function ByType(filter: string): TransferSummary -> bool {
    (t: TransferSummary) => HasType(t, filter)
  }

  function BySearch(term: string): TransferSummary -> bool {
    (t: TransferSummary) => MatchesTerm(t, term)
  }

  lemma {:induction false} FilterCompose<T>(s: seq<T>, p: T -> bool, q: T -> bool, pq: T -> bool)
    requires forall x :: pq(x) == (p(x) && q(x))
    ensures Filter(Filter(s, p), q) == Filter(s, pq)
  {
    if s != [] {
      FilterCompose(s[1..], p, q, pq);
      var head := if p(s[0]) then [s[0]] else [];
      FilterAppend(head, Filter(s[1..], p), q);
      if p(s[0]) {
        assert head[1..] == [];
      }
    }
  }

  /** `applyFilters` as a function of the list, the filter and the term. */
  function Filtered(transfers: seq<TransferSummary>, filter: string, search: string): (r: seq<TransferSummary>)
    ensures forall t :: t in r <==> t in transfers && Listed(t, filter, search)
  {
    var byType := if filter != AllFilter then Filter(transfers, ByType(filter)) else transfers;
    if search != "" then Filter(byType, BySearch(Lower(search))) else byType
  }

  /** The filtered list keeps the order of the full list. */
  lemma FilteredIsSubsequence(transfers: seq<TransferSummary>, filter: string, search: string)
    ensures IsSubsequence(Filtered(transfers, filter, search), transfers)
  {
    var p := ByType(filter);
    var q := BySearch(Lower(search));
    if filter != AllFilter && search != "" {
      var pq := (t: TransferSummary) => p(t) && q(t);
      assert Filtered(transfers, filter, search) == Filter(Filter(transfers, p), q);
      FilterCompose(transfers, p, q, pq);
      FilterIsSubsequence(transfers, pq);
    } else if filter != AllFilter {
      assert Filtered(transfers, filter, search) == Filter(transfers, p);
      FilterIsSubsequence(transfers, p);
    } else if search != "" {
      assert Filtered(transfers, filter, search) == Filter(transfers, q);
      FilterIsSubsequence(transfers, q);
    } else {
      assert Filtered(transfers, filter, search) == transfers;
      SubsequenceOfItself(transfers);
    }
  }

  lemma {:induction false} SubsequenceOfItself<T>(s: seq<T>)
    ensures IsSubsequence(s, s)
  {
    if s != [] {
      SubsequenceOfItself(s[1..]);
    }
  }

  /** 'all' and an empty term list everything, in order. */
  lemma NoFilterKeepsAll(transfers: seq<TransferSummary>)
    ensures Filtered(transfers, AllFilter, "") == transfers
  {
  }

  class TransferHistoryComponent {
    var transfers: seq<TransferSummary>
    var filteredTransfers: seq<TransferSummary>
    var isLoading: bool
    var selectedFilter: string
    var searchTerm: string

    constructor ()
      ensures transfers == [] && filteredTransfers == [] && isLoading
      ensures selectedFilter == AllFilter && searchTerm == ""
    {
      transfers := [];
      filteredTransfers := [];
      isLoading := true;
      selectedFilter := AllFilter;
      searchTerm := "";
    }

    /** `applyFilters`: the full list is never touched. */
    method ApplyFilters()
      modifies this
      ensures filteredTransfers == Filtered(transfers, selectedFilter, searchTerm)
      ensures transfers == old(transfers) && selectedFilter == old(selectedFilter)
      ensures searchTerm == old(searchTerm) && isLoading == old(isLoading)
    {
      var filtered := transfers;
      if selectedFilter != AllFilter {
        filtered := Filter(filtered, ByType(selectedFilter));
      }
      if searchTerm != "" {
        var term := Lower(searchTerm);
        filtered := Filter(filtered, BySearch(term));
      }
      filteredTransfers := filtered;
    }

    method OnFilterChange(filter: string)
      modifies this
      ensures selectedFilter == filter
      ensures filteredTransfers == Filtered(transfers, filter, searchTerm)
      ensures transfers == old(transfers) && searchTerm == old(searchTerm) && isLoading == old(isLoading)
    {
      selectedFilter := filter;
      ApplyFilters();
    }

    method OnSearchChange(term: string)
      modifies this
      ensures searchTerm == term
      ensures filteredTransfers == Filtered(transfers, selectedFilter, term)
      ensures transfers == old(transfers) && selectedFilter == old(selectedFilter) && isLoading == old(isLoading)
    {
      searchTerm := term;
      ApplyFilters();
    }

    /** `getFilterCount`. */
    function FilterCount(filter: string): (n: nat)
      reads this
      ensures n == |Filtered(transfers, filter, "")|
      ensures n <= |transfers|
    {
      if filter == AllFilter then |transfers| else CountIf(transfers, ByType(filter))
    }

    /** The two directions' counts add up to the count under 'all'. */
    lemma DirectionCountsAddUp()
      ensures FilterCount("incoming") + FilterCount("outgoing") == FilterCount(AllFilter)
    {
      DirectionSplit(transfers);
    }
  }

  lemma {:induction false} DirectionSplit(s: seq<TransferSummary>)
    ensures CountIf(s, ByType("incoming")) + CountIf(s, ByType("outgoing")) == |s|
  {
    if s != [] {
      DirectionSplit(s[1..]);
    }
  }
}
