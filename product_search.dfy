/**
 * components/products/product-search.tsx: the product picker's search. The
 * term and the offset are state; the query runs for terms of at least two
 * characters and pages by ten with "Load More".
 */
module ProductSearch {
  import opened Wrappers
  import opened Text
  import opened FormQuery
  import opened Config
  import ProductSearchApi

  const Limit: nat := 10

  const MinTermLength: nat := 2

  /** `enabled: searchTerm.length >= 2` */
  predicate QueryEnabled(searchTerm: string) {
    JsLength(searchTerm) >= MinTermLength
  }

  /** `new URLSearchParams({ q, limit, offset })` */
  function QueryParams(searchTerm: string, offset: int): seq<Param> {
    [("q", searchTerm), ("limit", IntToString(Limit)), ("offset", IntToString(offset))]
  }

  /** `${API_BASE_URL}/api/products/search?${params}` */
  function SearchRequestUrl(base: string, searchTerm: string, offset: int): string {
    base + "/api/products/search?" + Serialize(QueryParams(searchTerm, offset))
  }

  /** The URL the query function fetches, or `None` when it answers `null` at once. */
  function QueryRequest(base: string, searchTerm: string, offset: int): Option<string> {
    if searchTerm == "" || JsLength(searchTerm) < MinTermLength then None
    else Some(SearchRequestUrl(base, searchTerm, offset))
  }

  /**
   * The query function fetches exactly when the query is enabled, so the
   * `null` answer is never produced by an enabled query; the request carries
   * the term, the limit of ten and the offset, in that order.
   */
  lemma QueryRequestMeaning(base: string, searchTerm: string, offset: int)
    ensures QueryRequest(base, searchTerm, offset).Some? <==> QueryEnabled(searchTerm)
    ensures QueryRequest(base, searchTerm, offset).Some? ==>
      ParseRoute(base, QueryRequest(base, searchTerm, offset).value) ==
        Some(Route(["api", "products", "search"],
                   [("q", searchTerm), ("limit", IntToString(Limit)), ("offset", IntToString(offset))]))
  {
    if QueryEnabled(searchTerm) {
      RequestRoute(base, QueryParams(searchTerm, offset));
    }
  }

  /** Any non-empty parameter list after the search path reads back as that path and list. */
  lemma RequestRoute(base: string, ps: seq<Param>)
    requires ps != []
    ensures ParseRoute(base, base + "/api/products/search?" + Serialize(ps)) ==
      Some(Route(["api", "products", "search"], ps))
  {
    assert QuerySuffix(ps) == "?" + Serialize(ps);
    ProductSearchApi.SearchPathRoute(base, ps);
    MarkedPath(base, "/api/products/search?", "/api/products/search", Serialize(ps));
  }

  lemma MarkedPath(base: string, marked: string, path: string, query: string)
    requires marked == path + "?"
    ensures base + marked + query == base + path + ("?" + query)
  {
  }

  /** The limit parameter reads back as ten and the offset as the state's offset. */
  lemma QueryParamValues(searchTerm: string, offset: int)
    ensures ParseInt(QueryParams(searchTerm, offset)[1].1) == Some(10)
    ensures ParseInt(QueryParams(searchTerm, offset)[2].1) == Some(offset)
  {
    IntToStringRoundTrip(Limit);
    IntToStringRoundTrip(offset);
  }

  /** A fetched response: a non-ok status becomes the error "Search failed". */
  function QueryResult<T>(ok: bool, body: T): Outcome<T> {
    if ok then Ok(body) else Thrown(Some("Search failed"))
  }

  lemma QueryResultMeaning<T>(ok: bool, body: T)
    ensures QueryResult(ok, body).Ok? <==> ok
    ensures ok ==> QueryResult(ok, body).value == body
    ensures !ok ==> QueryResult(ok, body) == Thrown(Some("Search failed"))
  {
  }

  class ProductSearchView {
    var searchTerm: string
    var offset: int

    /** The offset is always a whole number of pages of ten. */
    predicate Valid()
      reads this
    {
      offset >= 0 && offset % Limit == 0
    }

    constructor ()
      ensures searchTerm == "" && offset == 0 && Valid()
    {
      searchTerm := "";
      offset := 0;
    }

    /**
     * The search bar's `onSearch`, followed by the effect keyed on the term:
     * the offset goes back to 0 only when the term changes, so submitting the
     * same term again keeps the pages already loaded.
     */
    method SetSearchTerm(term: string)
      modifies this
      ensures searchTerm == term
      ensures term != old(searchTerm) ==> offset == 0
      ensures term == old(searchTerm) ==> offset == old(offset)
      ensures old(Valid()) ==> Valid()
    {
      if term != searchTerm {
        offset := 0;
      }
      searchTerm := term;
    }

    /** "Load More": the next ten results. */
    method LoadMore()
      modifies this
      ensures offset == old(offset) + Limit && searchTerm == old(searchTerm)
      ensures old(Valid()) ==> Valid()
    {
      offset := offset + Limit;
    }
  }

  /** The "Load More" button: present only when more results exist, locked while fetching. */
  datatype LoadMoreButton = Hidden | Shown(disabled: bool, caption: string)

  function LoadMoreFor(hasMore: bool, isFetching: bool): LoadMoreButton {
    if !hasMore then Hidden else Shown(isFetching, if isFetching then "Loading..." else "Load More")
  }

  lemma LoadMoreMeaning(hasMore: bool, isFetching: bool)
    ensures LoadMoreFor(hasMore, isFetching).Shown? <==> hasMore
    ensures LoadMoreFor(hasMore, isFetching).Shown? ==> (LoadMoreFor(hasMore, isFetching).disabled <==> isFetching)
  {
  }

  /** What a result card's click passes to `onSelect`: its NOBB code, when it has a non-empty one. */
  function SelectedCode(nobbCode: Option<string>): Option<string> {
    if nobbCode.Some? && nobbCode.value != "" then nobbCode else None
  }

  lemma SelectedCodeMeaning(nobbCode: Option<string>)
    ensures SelectedCode(nobbCode).Some? <==> nobbCode.Some? && nobbCode.value != ""
    ensures SelectedCode(nobbCode).Some? ==> SelectedCode(nobbCode) == nobbCode
  {
  }

  /** The area under the search bar. */
  datatype ResultsArea = Spinner | ResultList(total: int) | NoResultsFound | Nothing

  function ResultsAreaFor(isLoading: bool, itemCount: Option<nat>, total: int, searchTerm: string): ResultsArea {
    if isLoading then Spinner
    else if itemCount.Some? && itemCount.value > 0 then ResultList(total)
    else if JsLength(searchTerm) >= MinTermLength then NoResultsFound
    else Nothing
  }

  /** "No results found" appears only for a searchable term that brought back nothing. */
  lemma ResultsAreaMeaning(isLoading: bool, itemCount: Option<nat>, total: int, searchTerm: string)
    ensures ResultsAreaFor(isLoading, itemCount, total, searchTerm) == NoResultsFound <==>
      !isLoading && (itemCount.None? || itemCount.value == 0) && QueryEnabled(searchTerm)
    ensures ResultsAreaFor(isLoading, itemCount, total, searchTerm).ResultList? <==>
      !isLoading && itemCount.Some? && itemCount.value > 0
  {
  }
}
