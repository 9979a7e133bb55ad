/**
 * lib/api/product-search.ts: `searchProducts` builds the search URL by
 * appending each defined parameter in a fixed order to a URL object, fetches
 * it, and turns a failed response into an error.
 */
module ProductSearchApi {
  import opened Wrappers
  import opened Text
  import opened FormQuery
  import opened Config

  datatype SortField = Name | Price | RetailerCount {
    /** The wire value of the field. */
    function Wire(): string {
      match this
      case Name => "name"
      case Price => "price"
      case RetailerCount => "retailer_count"
    }
  }

  datatype SortOrder = Asc | Desc {
    function Wire(): string {
      match this
      case Asc => "asc"
      case Desc => "desc"
    }
  }

  /** `ProductSearchParams`: every field may be left undefined. */
  datatype SearchParams = SearchParams(
    q: Option<string>,
    limit: Option<int>,
    offset: Option<int>,
    sortBy: Option<SortField>,
    sortOrder: Option<SortOrder>)

  /** A fetch response: the status line and the outcome of parsing its JSON body. */
  datatype Response<T> = Response(ok: bool, status: int, statusText: string, json: Outcome<T>)

  // -------------------------------------------------------------- the URL

  /** The URL object of `searchProducts`: a fixed location and its search parameters. */
  class SearchUrl {
    const location: string
    var searchParams: seq<Param>

    constructor (base: string)
      ensures location == base + "/api/products/search"
      ensures searchParams == []
    {
      location := base + "/api/products/search";
      searchParams := [];
    }

    /** `url.searchParams.append(name, value)` */
    method Append(name: string, value: string)
      modifies this
      ensures searchParams == old(searchParams) + [(name, value)]
    {
      searchParams := searchParams + [(name, value)];
    }

    /** `url.toString()`: the location, then `?` and the parameters when there are any. */
    function ToString(): string
      reads this
    {
      location + QuerySuffix(searchParams)
    }
  }

  function Opt(name: string, value: Option<string>): seq<Param> {
    if value.Some? then [(name, value.value)] else []
  }

  function IntText(i: Option<int>): Option<string> {
    if i.Some? then Some(IntToString(i.value)) else None
  }

  function FieldText(f: Option<SortField>): Option<string> {
    if f.Some? then Some(f.value.Wire()) else None
  }

  function OrderText(o: Option<SortOrder>): Option<string> {
    if o.Some? then Some(o.value.Wire()) else None
  }

  /** The parameters `searchProducts` appends, in the order it appends them. */
  function SearchQuery(p: SearchParams): seq<Param> {
    Opt("q", p.q) + Opt("limit", IntText(p.limit)) + Opt("offset", IntText(p.offset))
    + Opt("sort_by", FieldText(p.sortBy)) + Opt("sort_order", OrderText(p.sortOrder))
  }

  /** The URL that `searchProducts` fetches. */
  function SearchUrlFor(base: string, p: SearchParams): string {
    base + "/api/products/search" + QuerySuffix(SearchQuery(p))
  }

  /**
   * `searchProducts(params)` with the fetch's outcome given: `fetched` is the
   * response, or what the fetch threw. Returns the URL it requested and the
   * parsed body or the error it throws.
   */
  method SearchProducts<T>(base: string, p: SearchParams, fetched: Outcome<Response<T>>)
    returns (requested: string, result: Outcome<T>)
    ensures requested == SearchUrlFor(base, p)
    ensures fetched.Thrown? ==> result == Thrown(fetched.message)
    ensures fetched.Ok? && !fetched.value.ok ==>
      result == Thrown(Some("Failed to search products: " + IntToString(fetched.value.status)
                            + " " + fetched.value.statusText))
    ensures fetched.Ok? && fetched.value.ok ==> result == fetched.value.json
  {
    requested := BuildUrl(base, p);
    match fetched
    case Thrown(m) =>
      result := Thrown(m);
    case Ok(response) =>
      if !response.ok {
        result := Thrown(Some("Failed to search products: " + IntToString(response.status)
                              + " " + response.statusText));
      } else {
        result := response.json;
      }
  }

  /** The URL-building part of `searchProducts`: one conditional append per parameter. */
  method BuildUrl(base: string, p: SearchParams) returns (requested: string)
    ensures requested == SearchUrlFor(base, p)
  {
    var url := new SearchUrl(base);
    AppendPaging(url, p);
    ghost var paging := Opt("q", p.q) + Opt("limit", IntText(p.limit)) + Opt("offset", IntText(p.offset));
    assert url.searchParams == paging by {
      assert [] + Opt("q", p.q) == Opt("q", p.q);
    }
    AppendSorting(url, p);
    assert url.searchParams == SearchQuery(p);
    requested := url.ToString();
  }

  method AppendPaging(url: SearchUrl, p: SearchParams)
    modifies url
    ensures url.searchParams ==
      old(url.searchParams) + Opt("q", p.q) + Opt("limit", IntText(p.limit)) + Opt("offset", IntText(p.offset))
  {
    if p.q.Some? {
      url.Append("q", p.q.value);
    }
    if p.limit.Some? {
      url.Append("limit", IntToString(p.limit.value));
    }
    if p.offset.Some? {
      url.Append("offset", IntToString(p.offset.value));
    }
  }

  method AppendSorting(url: SearchUrl, p: SearchParams)
    modifies url
    ensures url.searchParams ==
      old(url.searchParams) + Opt("sort_by", FieldText(p.sortBy)) + Opt("sort_order", OrderText(p.sortOrder))
  {
    if p.sortBy.Some? {
      url.Append("sort_by", p.sortBy.value.Wire());
    }
    if p.sortOrder.Some? {
      url.Append("sort_order", p.sortOrder.value.Wire());
    }
  }

  // ------------------------------------------------------------ properties

  /** The first value given for `key`, if any. */
  function Lookup(ps: seq<Param>, key: string): Option<string> {
    if ps == [] then None
    else if ps[0].0 == key then Some(ps[0].1)
    else Lookup(ps[1..], key)
  }

  lemma {:induction false} LookupConcat(a: seq<Param>, b: seq<Param>, key: string)
    ensures Lookup(a + b, key) == if Lookup(a, key).Some? then Lookup(a, key) else Lookup(b, key)
  {
    if a != [] {
      assert (a + b)[0] == a[0];
      assert (a + b)[1..] == a[1..] + b;
      LookupConcat(a[1..], b, key);
    } else {
      assert a + b == b;
    }
  }

  lemma LookupOpt(name: string, value: Option<string>, key: string)
    ensures Lookup(Opt(name, value), key) == LookupIn(name, value, key)
  {
    if value.Some? {
      assert Opt(name, value)[1..] == [];
    }
  }

  /** The position of a parameter name in the order `searchProducts` appends them. */
  function Rank(key: string): int {
    if key == "q" then 0
    else if key == "limit" then 1
    else if key == "offset" then 2
    else if key == "sort_by" then 3
    else if key == "sort_order" then 4
    else 5
  }

  /**
   * Each parameter is present exactly when its field is defined, and then
   * carries that field's value; a defined empty `q` is present as the empty string.
   */
  lemma SearchQueryFields(p: SearchParams)
    ensures Lookup(SearchQuery(p), "q") == p.q
    ensures Lookup(SearchQuery(p), "limit") == IntText(p.limit)
    ensures Lookup(SearchQuery(p), "offset") == IntText(p.offset)
    ensures Lookup(SearchQuery(p), "sort_by") == FieldText(p.sortBy)
    ensures Lookup(SearchQuery(p), "sort_order") == OrderText(p.sortOrder)
  {
    SearchQueryAt(p, "q");
    SearchQueryAt(p, "limit");
    SearchQueryAt(p, "offset");
    SearchQueryAt(p, "sort_by");
    SearchQueryAt(p, "sort_order");
  }

  /** A key's lookup in the query finds the first of the five parts that holds the key. */
  lemma SearchQueryAt(p: SearchParams, key: string)
    ensures Lookup(SearchQuery(p), key) ==
      OrElse(LookupIn("q", p.q, key), OrElse(LookupIn("limit", IntText(p.limit), key),
      OrElse(LookupIn("offset", IntText(p.offset), key), OrElse(LookupIn("sort_by", FieldText(p.sortBy), key),
      LookupIn("sort_order", OrderText(p.sortOrder), key)))))
  {
    var a := Opt("q", p.q);
    var b := Opt("limit", IntText(p.limit));
    var c := Opt("offset", IntText(p.offset));
    var d := Opt("sort_by", FieldText(p.sortBy));
    var e := Opt("sort_order", OrderText(p.sortOrder));
    LookupConcat(a + b + c + d, e, key);
    LookupConcat(a + b + c, d, key);
    LookupConcat(a + b, c, key);
    LookupConcat(a, b, key);
    LookupOpt("q", p.q, key);
    LookupOpt("limit", IntText(p.limit), key);
    LookupOpt("offset", IntText(p.offset), key);
    LookupOpt("sort_by", FieldText(p.sortBy), key);
    LookupOpt("sort_order", OrderText(p.sortOrder), key);
  }

  /** What looking `key` up in a one-parameter part finds. */
  function LookupIn(name: string, value: Option<string>, key: string): Option<string> {
    if name == key then value else None
  }

  function OrElse(x: Option<string>, y: Option<string>): Option<string> {
    if x.Some? then x else y
  }

  /** Parameters appear in the fixed order q, limit, offset, sort_by, sort_order, each at most once. */
  lemma SearchQueryOrder(p: SearchParams)
    ensures forall i, j :: 0 <= i < j < |SearchQuery(p)| ==>
      Rank(SearchQuery(p)[i].0) < Rank(SearchQuery(p)[j].0)
    ensures forall i :: 0 <= i < |SearchQuery(p)| ==> Rank(SearchQuery(p)[i].0) < 5
  {
    var ps := SearchQuery(p);
    var a := Opt("q", p.q);
    var b := Opt("limit", IntText(p.limit));
    var c := Opt("offset", IntText(p.offset));
    var d := Opt("sort_by", FieldText(p.sortBy));
    var e := Opt("sort_order", OrderText(p.sortOrder));
    assert forall i :: 0 <= i < |a| ==> Rank(a[i].0) == 0;
    assert forall i :: 0 <= i < |b| ==> Rank(b[i].0) == 1;
    assert forall i :: 0 <= i < |c| ==> Rank(c[i].0) == 2;
    assert forall i :: 0 <= i < |d| ==> Rank(d[i].0) == 3;
    assert forall i :: 0 <= i < |e| ==> Rank(e[i].0) == 4;
    OrderedConcat(a, b, 0, 1);
    OrderedConcat(a + b, c, 1, 2);
    OrderedConcat(a + b + c, d, 2, 3);
    OrderedConcat(a + b + c + d, e, 3, 4);
  }

  predicate Ordered(ps: seq<Param>, bound: int) {
    (forall i, j :: 0 <= i < j < |ps| ==> Rank(ps[i].0) < Rank(ps[j].0))
    && (forall i :: 0 <= i < |ps| ==> Rank(ps[i].0) <= bound)
  }

  lemma OrderedConcat(a: seq<Param>, b: seq<Param>, lo: int, hi: int)
    requires lo < hi
    requires (forall i, j :: 0 <= i < j < |a| ==> Rank(a[i].0) < Rank(a[j].0))
    requires forall i :: 0 <= i < |a| ==> Rank(a[i].0) <= lo
    requires |b| <= 1
    requires forall i :: 0 <= i < |b| ==> Rank(b[i].0) == hi
    ensures forall i, j :: 0 <= i < j < |a + b| ==> Rank((a + b)[i].0) < Rank((a + b)[j].0)
    ensures forall i :: 0 <= i < |a + b| ==> Rank((a + b)[i].0) <= hi
  {
  }

  lemma JoinStartsWith(parts: seq<string>, sep: string)
    requires parts != []
    ensures StartsWith(Join(parts, sep), parts[0])
  {
    if |parts| > 1 {
      StartsWithConcat(parts[0], sep + Join(parts[1..], sep));
      assert parts[0] + sep + Join(parts[1..], sep) == parts[0] + (sep + Join(parts[1..], sep));
    }
  }

  /** A defined but empty `q` is still sent, as the leading `q=`. */
  lemma EmptyQuerySent(p: SearchParams)
    requires p.q == Some("")
    ensures StartsWith(Serialize(SearchQuery(p)), "q=")
  {
    var ps := SearchQuery(p);
    assert ps[0] == ("q", "");
    FormEncodeSafe("q");
    assert FormEncode("") == "" by {
      assert Utf8Encode("") == [];
    }
    assert EncodePairs(ps)[0] == "q=";
    JoinStartsWith(EncodePairs(ps), "&");
  }

  /** The URL is the search path under the base, carrying exactly the appended parameters. */
  lemma SearchUrlRoute(base: string, p: SearchParams)
    ensures ParseRoute(base, SearchUrlFor(base, p)) == Some(Route(["api", "products", "search"], SearchQuery(p)))
  {
    SearchPathRoute(base, SearchQuery(p));
  }

  lemma SearchPathRoute(base: string, ps: seq<Param>)
    ensures ParseRoute(base, base + "/api/products/search" + QuerySuffix(ps)) ==
      Some(Route(["api", "products", "search"], ps))
  {
    SearchPathRouteWith(base, ps, "api", "products", "search");
  }

  lemma SearchPathRouteWith(base: string, ps: seq<Param>, a: string, b: string, c: string)
    requires a == "api" && b == "products" && c == "search"
    ensures ParseRoute(base, base + "/api/products/search" + QuerySuffix(ps)) == Some(Route([a, b, c], ps))
  {
    Join3(a, b, c);
    SearchPathText(a, b, c);
    FixedRoute(base, [a, b, c], ps, "/api/products/search", QuerySuffix(ps));
  }

  lemma SearchPathText(a: string, b: string, c: string)
    requires a == "api" && b == "products" && c == "search"
    ensures "/" + (a + "/" + (b + "/" + c)) == "/api/products/search"
  {
  }

  /** Without any defined parameter the URL has no query at all. */
  lemma SearchUrlBare(base: string, p: SearchParams)
    requires p == SearchParams(None, None, None, None, None)
    ensures SearchUrlFor(base, p) == base + "/api/products/search"
  {
    assert SearchQuery(p) == [];
  }
}
