/**
 * The optional `{offset, limit, sort, search}` record the list endpoints take,
 * and the string-valued query parameters the services derive from it.
 * `offset` is a 1-based page number, not a row offset.
 */
module ListQuery {
  import opened Wrappers
  import opened Strings

  datatype PaginationQuery = PaginationQuery(
    offset: Option<int>,
    limit: Option<int>,
    sort: Option<string>,
    search: Option<string>)

  /** Query parameters as sent over HTTP. */
  type Params = map<string, string>

  /** A GET request: path and query parameters. */
  datatype GetRequest = GetRequest(url: string, params: Params)

  /** `n?.toString() || fallback`: a number's string is never empty, so the fallback only replaces an absent number. */
  function NumberParam(n: Option<int>, fallback: string): (r: string)
    ensures n.None? ==> r == fallback
    ensures n.Some? ==> IsIntString(r) && ParseInt(r) == n.value
  {
    match n
    case Some(v) => ParseIntToString(v); IntToString(v)
    case None => fallback
  }

  /** JavaScript truthiness of an optional string: present and not empty. */
  predicate Present(s: Option<string>) {
    s.Some? && s.value != ""
  }

  /**
   * The parameters every list query carries: offset (default '1'), limit
   * (default '10'), and sort and search only when they are non-empty.
   */
  predicate CarriesListQuery(q: PaginationQuery, p: Params) {
    && "offset" in p && p["offset"] == NumberParam(q.offset, "1")
    && "limit" in p && p["limit"] == NumberParam(q.limit, "10")
    && ("sort" in p <==> Present(q.sort))
    && ("sort" in p ==> p["sort"] == q.sort.value)
    && ("search" in p <==> Present(q.search))
    && ("search" in p ==> p["search"] == q.search.value)
  }

  /** A list query's parameters and nothing else. */
  predicate IsListParams(q: PaginationQuery, p: Params) {
    CarriesListQuery(q, p) && p.Keys <= {"offset", "limit", "sort", "search"}
  }

  /** The keys always come from the four names and always include offset and limit. */
  lemma ListParamsKeys(q: PaginationQuery, p: Params)
    requires IsListParams(q, p)
    ensures {"offset", "limit"} <= p.Keys <= {"offset", "limit", "sort", "search"}
  {
  }

  /** The query determines its parameters completely. */
  lemma ListParamsUnique(q: PaginationQuery, p1: Params, p2: Params)
    requires IsListParams(q, p1) && IsListParams(q, p2)
    ensures p1 == p2
  {
    assert p1.Keys == p2.Keys;
  }

  /**
   * The params construction shared by `getTopics` and `getAllIssuedBooks`:
   * a literal with offset and limit, then conditional insertion of sort and search.
   */
  method BuildListParams(q: PaginationQuery) returns (params: Params)
    ensures IsListParams(q, params)
  {
    params := map["offset" := NumberParam(q.offset, "1"), "limit" := NumberParam(q.limit, "10")];
    if Present(q.sort) {
      params := params["sort" := q.sort.value];
    }
    if Present(q.search) {
      params := params["search" := q.search.value];
    }
  }
}
