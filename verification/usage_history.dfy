/**
 * The usage-history page: the full transaction history, the filtered list on screen, and
 * the date and company-name filters that produce it.
 */
module UsageHistory {
  import opened Wrappers
  import opened Seqs
  import opened Text

  /**
   * A transaction row joined with its match's customer and business names. `companyName`
   * is `None` when the row has no joined match or business, so that reading
   * `item.matches.business_profiles.company_name` throws.
   */
  datatype HistoryItem = HistoryItem(
    id: string, amount: real, status: string, createdAt: string,
    customerName: string, companyName: Option<string>)

  function OnDate(date: string): HistoryItem -> bool
  {
    (item: HistoryItem) => StartsWith(item.createdAt, date)
  }

  function CompanyContains(search: string): HistoryItem -> bool
  {
    (item: HistoryItem) => item.companyName.Some? && Includes(Lower(item.companyName.value), Lower(search))
  }

  /** The filters a row must pass: each one only when its input is non-empty. */
  predicate Passes(item: HistoryItem, date: string, search: string)
  {
    && (date != "" ==> StartsWith(item.createdAt, date))
    && (search != "" ==> item.companyName.Some? && Includes(Lower(item.companyName.value), Lower(search)))
  }

  function PassesAll(date: string, search: string): HistoryItem -> bool
  {
    (item: HistoryItem) => Passes(item, date, search)
  }

  /** What `filterHistory(date, search)` computes when the company filter does not throw. */
  function FilteredHistory(history: seq<HistoryItem>, date: string, search: string): (r: seq<HistoryItem>)
    ensures |r| <= |history| && multiset(r) <= multiset(history)
  {
    var byDate := if date != "" then Filter(OnDate(date), history) else history;
    if search != "" then Filter(CompanyContains(search), byDate) else byDate
  }

  /**
   * The outcome of `filterHistory`: the filtered list, or `None` when the company filter
   * throws on a row that passed the date filter but has no joined company name, so that
   * the list is never set.
   */
  function FilterOutcome(history: seq<HistoryItem>, date: string, search: string): (r: Option<seq<HistoryItem>>)
    ensures r.None? <==> search != "" && exists item :: item in history && item.companyName.None?
                                                       && (date != "" ==> StartsWith(item.createdAt, date))
    ensures r.Some? ==> r.value == FilteredHistory(history, date, search)
  {
    FilterMembers(OnDate(date), history);
    var byDate := if date != "" then Filter(OnDate(date), history) else history;
    if search != "" && exists item :: item in byDate && item.companyName.None? then None
    else Some(FilteredHistory(history, date, search))
  }

  /**
   * The two successive filters are one filter by both conditions: the result is an
   * order-preserving subsequence of the history, holding exactly the rows that pass.
   */
  lemma FilteredHistoryIsOnePass(history: seq<HistoryItem>, date: string, search: string)
    ensures FilteredHistory(history, date, search) == Filter(PassesAll(date, search), history)
  {
    var byDate := if date != "" then Filter(OnDate(date), history) else history;
    if date != "" && search != "" {
      FilterFilter(OnDate(date), CompanyContains(search), PassesAll(date, search), history);
    } else if date != "" {
      FilterAgree(OnDate(date), PassesAll(date, search), history);
    } else if search != "" {
      FilterAgree(CompanyContains(search), PassesAll(date, search), history);
    } else {
      FilterKeepsAll(PassesAll(date, search), history);
    }
  }

  /**
   * Soundness and completeness: a row is shown exactly when it is in the history, its
   * `created_at` starts with a non-empty date, and its lower-cased company name contains a
   * non-empty lower-cased search term; and the rows shown keep their history order.
   */
  lemma FilteredHistorySpec(history: seq<HistoryItem>, date: string, search: string, item: HistoryItem)
    ensures IsSubseq(FilteredHistory(history, date, search), history)
    ensures item in FilteredHistory(history, date, search) <==>
      && item in history
      && (date != "" ==> StartsWith(item.createdAt, date))
      && (search != "" ==> item.companyName.Some? && Includes(Lower(item.companyName.value), Lower(search)))
  {
    FilteredHistoryIsOnePass(history, date, search);
    FilterIsSubseq(PassesAll(date, search), history);
    FilterMembership(PassesAll(date, search), history, item);
  }

  /** With neither filter set, the whole history is shown. */
  lemma NoFilterShowsAll(history: seq<HistoryItem>)
    ensures FilteredHistory(history, "", "") == history
  {
  }

  /** Filtering an already filtered list with the same inputs changes nothing. */
  lemma FilteredHistoryIdempotent(history: seq<HistoryItem>, date: string, search: string)
    ensures FilteredHistory(FilteredHistory(history, date, search), date, search)
         == FilteredHistory(history, date, search)
  {
    var f := FilteredHistory(history, date, search);
    FilteredHistoryIsOnePass(history, date, search);
    FilteredHistoryIsOnePass(f, date, search);
    FilterIdempotent(PassesAll(date, search), history);
  }

  /** The page's state, as its `useState` hooks hold it. */
  class UsageHistoryPage {
    var usageHistory: seq<HistoryItem>
    var filteredHistory: seq<HistoryItem>
    var dateFilter: string
    var searchTerm: string

    /** What is shown is always drawn, in order, from the full history. */
    ghost predicate Valid()
      reads this
    {
      IsSubseq(filteredHistory, usageHistory)
    }

    constructor ()
      ensures Valid()
      ensures usageHistory == [] && filteredHistory == [] && dateFilter == "" && searchTerm == ""
    {
      usageHistory, filteredHistory := [], [];
      dateFilter, searchTerm := "", "";
    }

    /** The successful branch of `fetchUsageHistory`: both lists become the rows read. */
    method LoadHistory(data: seq<HistoryItem>)
      modifies this`usageHistory, this`filteredHistory
      ensures Valid()
      ensures usageHistory == data && filteredHistory == data
      ensures dateFilter == old(dateFilter) && searchTerm == old(searchTerm)
    {
      usageHistory := data;
      filteredHistory := data;
      SubseqReflexive(data);
    }

    /**
     * `filterHistory`: recomputes the list on screen from the full history alone; when the
     * company filter throws, the list on screen stays as it was.
     */
    method FilterHistory(date: string, search: string)
      requires Valid()
      modifies this`filteredHistory
      ensures Valid()
      ensures FilterOutcome(usageHistory, date, search).Some? ==>
        filteredHistory == FilteredHistory(usageHistory, date, search)
      ensures FilterOutcome(usageHistory, date, search).None? ==> filteredHistory == old(filteredHistory)
    {
      var outcome := FilterOutcome(usageHistory, date, search);
      if outcome.Some? {
        filteredHistory := outcome.value;
        FilteredHistoryIsOnePass(usageHistory, date, search);
        FilterIsSubseq(PassesAll(date, search), usageHistory);
      }
    }

    /** `handleDateFilter`: stores the new date and filters with it and the current search term. */
    method HandleDateFilter(value: string)
      requires Valid()
      modifies this`dateFilter, this`filteredHistory
      ensures Valid()
      ensures dateFilter == value && searchTerm == old(searchTerm) && usageHistory == old(usageHistory)
      ensures FilterOutcome(usageHistory, value, searchTerm).Some? ==>
        filteredHistory == FilteredHistory(usageHistory, value, searchTerm)
      ensures FilterOutcome(usageHistory, value, searchTerm).None? ==> filteredHistory == old(filteredHistory)
    {
      dateFilter := value;
      FilterHistory(value, searchTerm);
    }

    /** `handleSearch`: stores the new search term and filters with it and the current date. */
    method HandleSearch(value: string)
      requires Valid()
      modifies this`searchTerm, this`filteredHistory
      ensures Valid()
      ensures searchTerm == value && dateFilter == old(dateFilter) && usageHistory == old(usageHistory)
      ensures FilterOutcome(usageHistory, dateFilter, value).Some? ==>
        filteredHistory == FilteredHistory(usageHistory, dateFilter, value)
      ensures FilterOutcome(usageHistory, dateFilter, value).None? ==> filteredHistory == old(filteredHistory)
    {
      searchTerm := value;
      FilterHistory(dateFilter, value);
    }
  }
}
