/** The book-issue REST service (`BookIssueService`): the two list requests it issues. */
module BookIssueApi {
  import opened ListQuery
  import opened Strings

  const IssuesBase: string := "api/book-issue"

  /** An issue record; dates are kept as the strings the server sends. */
  datatype BookIssue = BookIssue(bookId: string, userId: string, status: string, issueDate: string)

  /** `BY_USER(userId)`. */
  function ByUserUrl(userId: string): string {
    IssuesBase + "/user/" + userId
  }

  /** The URL of `getAllIssuedBooks`: the base path with `/all` appended. */
  function AllIssuesUrl(): (url: string)
    ensures StartsWith(url, IssuesBase) && url[|IssuesBase|..] == "/all"
  {
    IssuesBase + "/all"
  }

  /** `getAllIssuedBooks(query)`: GET api/book-issue/all with the list parameters. */
  method GetAllIssuedBooks(q: PaginationQuery) returns (req: GetRequest)
    ensures req.url == AllIssuesUrl()
    ensures IsListParams(q, req.params)
  {
    var params := BuildListParams(q);
    req := GetRequest(AllIssuesUrl(), params);
  }

  /**
   * `getIssuedBooksByUser(userId, page, pageSize)`: exactly offset and limit,
   * the string forms of page and pageSize, with no defaults and no sort or search.
   */
  method GetIssuedBooksByUser(userId: string, page: int, pageSize: int) returns (req: GetRequest)
    ensures req.url == ByUserUrl(userId)
    ensures req.params.Keys == {"offset", "limit"}
    ensures req.params["offset"] == IntToString(page) && req.params["limit"] == IntToString(pageSize)
    ensures IsIntString(req.params["offset"]) && IsIntString(req.params["limit"])
    ensures ParseInt(req.params["offset"]) == page && ParseInt(req.params["limit"]) == pageSize
  {
    ParseIntToString(page);
    ParseIntToString(pageSize);
    req := GetRequest(ByUserUrl(userId), map["offset" := IntToString(page), "limit" := IntToString(pageSize)]);
  }
}
