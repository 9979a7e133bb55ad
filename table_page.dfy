/**
 * app/products2/page.tsx: the table state reducer, the translation of table
 * sorting to API sort parameters, pagination, and what the search query does
 * for a given state.
 */
module TablePage {
  import opened Wrappers
  import opened Text
  import opened ProductSearchApi

  /** One entry of TanStack Table's `SortingState`. */
  datatype SortingEntry = SortingEntry(id: string, desc: bool)

  datatype TableState = TableState(
    pageIndex: int,
    pageSize: int,
    sortingState: seq<SortingEntry>,
    searchTerm: string)

  /** The five declared actions, and any other value, which the reducer ignores. */
  datatype TableAction =
    | SetPageIndex(index: int)
    | SetPageSize(size: int)
    | SetSorting(sorting: seq<SortingEntry>)
    | SetSearchTerm(term: string)
    | ResetPagination
    | Unrecognised

  const InitialState: TableState := TableState(0, 20, [], "")

  const MinSearchLength: nat := 2

  /** `tableReducer` */
  function TableReducer(state: TableState, action: TableAction): TableState {
    match action
    case SetPageIndex(n) => state.(pageIndex := n)
    case SetPageSize(n) => state.(pageSize := n, pageIndex := 0)
    case SetSorting(s) => state.(sortingState := s, pageIndex := 0)
    case SetSearchTerm(t) => state.(searchTerm := t, pageIndex := 0)
    case ResetPagination => state.(pageIndex := 0)
    case Unrecognised => state
  }

  /** Setting the page index changes only the page index. */
  lemma SetPageIndexFrame(state: TableState, n: int)
    ensures TableReducer(state, SetPageIndex(n)).pageIndex == n
    ensures TableReducer(state, SetPageIndex(n)).pageSize == state.pageSize
    ensures TableReducer(state, SetPageIndex(n)).sortingState == state.sortingState
    ensures TableReducer(state, SetPageIndex(n)).searchTerm == state.searchTerm
  {
  }

  /**
   * Each configuration action sets its own field and returns to the first
   * page; the two remaining fields keep their values.
   */
  lemma ConfigurationResetsPage(state: TableState, action: TableAction)
    requires action.SetPageSize? || action.SetSorting? || action.SetSearchTerm?
    ensures TableReducer(state, action).pageIndex == 0
    ensures TableReducer(state, action).pageSize == if action.SetPageSize? then action.size else state.pageSize
    ensures TableReducer(state, action).sortingState ==
      if action.SetSorting? then action.sorting else state.sortingState
    ensures TableReducer(state, action).searchTerm ==
      if action.SetSearchTerm? then action.term else state.searchTerm
  {
  }

  /** `RESET_PAGINATION` changes only the page index; an unknown action changes nothing. */
  lemma ResetAndDefault(state: TableState)
    ensures TableReducer(state, ResetPagination) == state.(pageIndex := 0)
    ensures TableReducer(state, Unrecognised) == state
  {
  }

  /** Dispatching the same action twice has the effect of dispatching it once. */
  lemma ReducerIdempotent(state: TableState, action: TableAction)
    ensures TableReducer(TableReducer(state, action), action) == TableReducer(state, action)
  {
  }

  /** A state the page can be in: a page index from 0 and a positive page size. */
  predicate ValidState(state: TableState) {
    state.pageIndex >= 0 && state.pageSize > 0
  }

  /** An action whose payload keeps the state valid. */
  predicate ValidAction(action: TableAction) {
    match action
    case SetPageIndex(n) => n >= 0
    case SetPageSize(n) => n > 0
    case _ => true
  }

  lemma ReducerPreservesValid(state: TableState, action: TableAction)
    requires ValidState(state) && ValidAction(action)
    ensures ValidState(TableReducer(state, action))
  {
  }

  lemma {:induction false} ReducerPreservesValidAll(state: TableState, actions: seq<TableAction>)
    requires ValidState(state)
    requires forall i :: 0 <= i < |actions| ==> ValidAction(actions[i])
    ensures ValidState(Dispatch(state, actions))
    decreases |actions|
  {
    if actions != [] {
      ReducerPreservesValid(state, actions[0]);
      ReducerPreservesValidAll(TableReducer(state, actions[0]), actions[1..]);
    }
  }

  /** The state after dispatching `actions` in order. */
  function Dispatch(state: TableState, actions: seq<TableAction>): TableState
    decreases |actions|
  {
    if actions == [] then state else Dispatch(TableReducer(state, actions[0]), actions[1..])
  }

  // -------------------------------------------------------------- sorting

  /** `sortFieldMap[column]`: the API field for a column id, if it has one. */
  function SortFieldOf(column: string): Option<SortField> {
    if column == "base_name" then Some(Name)
    else if column == "median_price_all_retailers" then Some(Price)
    else if column == "retailer_count" then Some(RetailerCount)
    else None
  }

  datatype SortParams = SortParams(sortBy: Option<SortField>, sortOrder: Option<SortOrder>)

  /** `getSortParams` */
  function GetSortParams(sorting: seq<SortingEntry>): SortParams {
    if |sorting| == 0 then SortParams(None, None)
    else
      var column := sorting[0].id;
      var direction := if sorting[0].desc then Desc else Asc;
      var sortField := SortFieldOf(column);
      if sortField.None? then SortParams(None, None)
      else SortParams(sortField, Some(direction))
  }

  /**
   * There is a sort exactly when the first entry names a mapped column; the
   * field is that column's and the order is descending exactly when the entry
   * says so. Only the first entry matters.
   */
  lemma GetSortParamsMeaning(sorting: seq<SortingEntry>)
    ensures GetSortParams(sorting).sortBy.Some? <==> GetSortParams(sorting).sortOrder.Some?
    ensures GetSortParams(sorting).sortBy.Some? <==> |sorting| > 0 && SortFieldOf(sorting[0].id).Some?
    ensures GetSortParams(sorting).sortBy.Some? ==>
      GetSortParams(sorting).sortBy == SortFieldOf(sorting[0].id)
      && (GetSortParams(sorting).sortOrder == Some(Desc) <==> sorting[0].desc)
    ensures |sorting| > 0 ==> GetSortParams(sorting) == GetSortParams(sorting[..1])
  {
  }

  /** The three mapped columns, and nothing else (the other table columns are not sortable by the API). */
  lemma SortFieldMapping(column: string)
    ensures SortFieldOf("base_name") == Some(Name)
    ensures SortFieldOf("median_price_all_retailers") == Some(Price)
    ensures SortFieldOf("retailer_count") == Some(RetailerCount)
    ensures SortFieldOf(column).Some? <==>
      column in {"base_name", "median_price_all_retailers", "retailer_count"}
  {
  }

  // ----------------------------------------------------------- pagination

  /** `handlePaginationChange`: the action it dispatches. */
  function PaginationAction(state: TableState, newPageIndex: int, newPageSize: int): TableAction {
    if newPageSize != state.pageSize then SetPageSize(newPageSize) else SetPageIndex(newPageIndex)
  }

  /**
   * A new page size moves to the first page with that size; the same page size
   * moves to the requested page. Sorting and term are kept either way.
   */
  lemma PaginationChange(state: TableState, newPageIndex: int, newPageSize: int)
    ensures var s := TableReducer(state, PaginationAction(state, newPageIndex, newPageSize));
      s.pageSize == newPageSize
      && s.pageIndex == (if newPageSize != state.pageSize then 0 else newPageIndex)
      && s.sortingState == state.sortingState
      && s.searchTerm == state.searchTerm
  {
  }

  /** `offset = pageIndex * pageSize` */
  function Offset(state: TableState): int {
    state.pageIndex * state.pageSize
  }

  /** The offset is the number of rows on the pages before the current one. */
  lemma OffsetPages(state: TableState)
    requires ValidState(state)
    ensures Offset(state) >= 0
    ensures Offset(TableReducer(state, SetPageIndex(state.pageIndex + 1))) == Offset(state) + state.pageSize
    ensures Offset(TableReducer(state, ResetPagination)) == 0
  {
  }

  /** `Math.ceil(n / d)` for a whole number `n` and a positive `d`. */
  function CeilDiv(n: nat, d: int): (c: nat)
    requires d > 0
  {
    (n + d - 1) / d
  }

  lemma CeilDivMeaning(n: nat, d: int)
    requires d > 0
    ensures CeilDiv(n, d) * d >= n
    ensures CeilDiv(n, d) > 0 ==> (CeilDiv(n, d) - 1) * d < n
    ensures CeilDiv(n, d) == 0 <==> n == 0
  {
    var c := CeilDiv(n, d);
    var r := (n + d - 1) % d;
    assert n + d - 1 == c * d + r;
  }

  /** `pageCount`: zero without results, else the number of pages the total needs. */
  function PageCount(total: Option<nat>, pageSize: int): nat
    requires pageSize > 0
  {
    if total.None? then 0 else CeilDiv(total.value, pageSize)
  }

  /**
   * The page count is the least number of pages that hold all results, so
   * every result lies on some page below the count.
   */
  lemma PageCountMeaning(total: Option<nat>, pageSize: int)
    requires pageSize > 0
    ensures total.None? ==> PageCount(total, pageSize) == 0
    ensures total.Some? ==> PageCount(total, pageSize) * pageSize >= total.value
    ensures total.Some? && PageCount(total, pageSize) > 0 ==>
      (PageCount(total, pageSize) - 1) * pageSize < total.value
  {
    if total.Some? {
      CeilDivMeaning(total.value, pageSize);
    }
  }

  // ---------------------------------------------------------- the query

  /** `shouldFetch`: an empty term or one of at least two characters. */
  predicate ShouldFetch(searchTerm: string) {
    searchTerm == "" || JsLength(searchTerm) >= MinSearchLength
  }

  /** The result the query function returns without a request. */
  datatype SearchResult = SearchResult(itemCount: nat, total: nat, limit: int, offset: int, hasMore: bool)

  /** What the query function does: answer at once, or call `searchProducts` with these parameters. */
  datatype QueryPlan = Immediate(result: SearchResult) | Request(params: SearchParams)

  /** `queryFn` */
  function QueryFn(state: TableState): QueryPlan {
    if state.searchTerm != "" && JsLength(state.searchTerm) < MinSearchLength then
      Immediate(SearchResult(0, 0, state.pageSize, 0, false))
    else
      var sort := GetSortParams(state.sortingState);
      Request(SearchParams(
        if state.searchTerm == "" then None else Some(state.searchTerm),
        Some(state.pageSize),
        Some(Offset(state)),
        sort.sortBy,
        sort.sortOrder))
  }

  /**
   * A one-character term is answered at once with an empty first page; every
   * other term is requested with the state's size and offset, and an empty term
   * is sent without any `q` parameter.
   */
  lemma QueryFnMeaning(state: TableState)
    ensures QueryFn(state).Immediate? <==> !ShouldFetch(state.searchTerm)
    ensures QueryFn(state).Immediate? ==>
      QueryFn(state).result.itemCount == 0 && QueryFn(state).result.total == 0
      && QueryFn(state).result.offset == 0 && !QueryFn(state).result.hasMore
    ensures QueryFn(state).Request? ==>
      Lookup(SearchQuery(QueryFn(state).params), "q") ==
        (if state.searchTerm == "" then None else Some(state.searchTerm))
      && QueryFn(state).params.limit == Some(state.pageSize)
      && QueryFn(state).params.offset == Some(Offset(state))
      && QueryFn(state).params.sortBy == GetSortParams(state.sortingState).sortBy
      && QueryFn(state).params.sortOrder == GetSortParams(state.sortingState).sortOrder
  {
    if QueryFn(state).Request? {
      SearchQueryFields(QueryFn(state).params);
    }
  }

  /**
   * The query is enabled only when `shouldFetch` holds, so whenever it runs
   * it makes a request: the immediate empty answer is never produced.
   */
  lemma EnabledQueryRequests(state: TableState)
    requires ShouldFetch(state.searchTerm)
    ensures QueryFn(state).Request?
  {
  }

  /** `searchResults?.total || 0` */
  function TotalItems(total: Option<nat>): nat {
    if total.Some? then total.value else 0
  }

  /**
   * The table's total is 0 exactly when the page count is 0: with no response
   * or an empty result both are 0, and otherwise the total is the response's.
   */
  lemma TotalItemsMeaning(total: Option<nat>, pageSize: int)
    requires pageSize > 0
    ensures TotalItems(total) == 0 <==> PageCount(total, pageSize) == 0
    ensures total.Some? ==> TotalItems(total) == total.value
  {
    if total.Some? {
      CeilDivMeaning(total.value, pageSize);
    }
  }

  /** The banner the page shows instead of the table: a failed query whose term may be fetched. */
  function ErrorBanner(isError: bool, searchTerm: string, message: string): Option<string> {
    if isError && ShouldFetch(searchTerm) then
      Some(if message != "" then message else "Failed to load products")
    else None
  }

  /**
   * The banner appears exactly for a failed query on a fetchable term, and it
   * is never blank: it carries the error's message or the fallback text.
   */
  lemma ErrorBannerMeaning(isError: bool, searchTerm: string, message: string)
    ensures ErrorBanner(isError, searchTerm, message).Some? <==> isError && ShouldFetch(searchTerm)
    ensures ErrorBanner(isError, searchTerm, message).Some? ==>
      ErrorBanner(isError, searchTerm, message).value != ""
      && (message != "" ==> ErrorBanner(isError, searchTerm, message).value == message)
  {
  }
}
