/** The books REST service (`BooksService`): the list request it issues. */
module BooksApi {
  import opened ListQuery

  const BooksBase: string := "api/books"

  /** The list parameters plus `includeDeleted = 'true'` exactly when asked for. */
  predicate IsBooksParams(q: PaginationQuery, includeDeleted: bool, p: Params) {
    && CarriesListQuery(q, p)
    && ("includeDeleted" in p <==> includeDeleted)
    && (includeDeleted ==> p["includeDeleted"] == "true")
    && p.Keys <= {"offset", "limit", "sort", "search", "includeDeleted"}
  }

  /** The query and the flag determine the parameters completely. */
  lemma BooksParamsUnique(q: PaginationQuery, includeDeleted: bool, p1: Params, p2: Params)
    requires IsBooksParams(q, includeDeleted, p1) && IsBooksParams(q, includeDeleted, p2)
    ensures p1 == p2
  {
    assert p1.Keys == p2.Keys;
  }

  /** Without the flag the books parameters are exactly the plain list parameters. */
  lemma BooksParamsWithoutFlag(q: PaginationQuery, p: Params)
    ensures IsBooksParams(q, false, p) <==> IsListParams(q, p)
  {
  }

  /** `getBooks(query, includeDeleted = false)`: GET api/books with the derived parameters. */
  method GetBooks(q: PaginationQuery, includeDeleted: bool := false) returns (req: GetRequest)
    ensures req.url == BooksBase
    ensures IsBooksParams(q, includeDeleted, req.params)
  {
    var params := map["offset" := NumberParam(q.offset, "1"), "limit" := NumberParam(q.limit, "10")];
    if Present(q.sort) {
      params := params["sort" := q.sort.value];
    }
    if Present(q.search) {
      params := params["search" := q.search.value];
    }
    if includeDeleted {
      params := params["includeDeleted" := "true"];
    }
    req := GetRequest(BooksBase, params);
  }

  /** `getAllBooks(query)`: delegates to `getBooks(query, true)`. */
  method GetAllBooks(q: PaginationQuery) returns (req: GetRequest)
    ensures req.url == BooksBase
    ensures IsBooksParams(q, true, req.params)
  {
    req := GetBooks(q, true);
  }
}
