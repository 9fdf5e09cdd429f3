/** `BookIssueComponent`: issues a book and pages through one user's issued books. */
module BookIssue {
  import opened Wrappers
  import opened Strings
  import opened ListQuery
  import opened BookIssueApi

  /**
   * `Math.ceil(total / pageSize) || 1`: the ceiling of the quotient, or 1
   * when that ceiling is 0.
   */
  function PageCount(total: int, pageSize: int): (r: int)
    requires pageSize > 0
    ensures r != 0
    ensures (-pageSize < total <= 0 && r == 1) || ((r - 1) * pageSize < total <= r * pageSize)
    ensures total >= 0 ==> r >= 1
  {
    var c := -((-total) / pageSize);
    CeilingBounds(total, pageSize);
    if c != 0 then c else 1
  }

  lemma CeilingBounds(total: int, pageSize: int)
    requires pageSize > 0
    ensures var c := -((-total) / pageSize); (c - 1) * pageSize < total <= c * pageSize
  {
    var q := (-total) / pageSize;
    var m := (-total) % pageSize;
    assert -total == q * pageSize + m && 0 <= m < pageSize;
    assert (-q - 1) * pageSize == -(q * pageSize) - pageSize;
  }

  /** The issue call: the two ids from the form. */
  datatype IssueRequest = IssueRequest(userId: string, bookId: string)

  class BookIssueComponent {
    var error: Option<string>
    var success: Option<string>
    var searchUserId: string
    var issuedBooks: seq<BookIssue>
    var issuedBooksTotal: int
    var issuedBooksPage: int
    const issuedBooksPageSize: int := 5

    constructor ()
      ensures error.None? && success.None? && searchUserId == ""
      ensures issuedBooks == [] && issuedBooksTotal == 0 && issuedBooksPage == 1
    {
      error, success, searchUserId := None, None, "";
      issuedBooks, issuedBooksTotal, issuedBooksPage := [], 0, 1;
    }

    /** The search box is bound to `searchUserId`. */
    method SetSearchUserId(userId: string)
      modifies this
      ensures searchUserId == userId
      ensures error == old(error) && success == old(success) && issuedBooks == old(issuedBooks)
      ensures issuedBooksTotal == old(issuedBooksTotal) && issuedBooksPage == old(issuedBooksPage)
    {
      searchUserId := userId;
    }

    /** `issuedBooksTotalPages`: never 0, and at least 1 for a non-negative total. */
    function IssuedBooksTotalPages(): (r: int)
      reads this
      ensures r != 0 && (issuedBooksTotal >= 0 ==> r >= 1)
    {
      PageCount(issuedBooksTotal, issuedBooksPageSize)
    }

    /** `onSubmit` up to the call: the issue request is sent only for a valid form. */
    method OnSubmit(formValid: bool, userId: string, bookId: string) returns (req: Option<IssueRequest>)
      ensures req.Some? <==> formValid
      ensures req.Some? ==> req.value == IssueRequest(userId, bookId)
    {
      req := if formValid then Some(IssueRequest(userId, bookId)) else None;
    }

    /** The issue succeeded: the server's message is shown and the error cleared. */
    method OnIssueSuccess(message: string)
      modifies this
      ensures success == Some(message) && error.None?
      ensures searchUserId == old(searchUserId) && issuedBooks == old(issuedBooks)
      ensures issuedBooksTotal == old(issuedBooksTotal) && issuedBooksPage == old(issuedBooksPage)
    {
      success := Some(message);
      error := None;
    }

    /** The issue failed: the backend message or 'Failed to issue book'; the success message is cleared. */
    method OnIssueError(backendMessage: Option<string>)
      modifies this
      ensures error == Some(OrDefault(backendMessage, "Failed to issue book")) && success.None?
      ensures searchUserId == old(searchUserId) && issuedBooks == old(issuedBooks)
      ensures issuedBooksTotal == old(issuedBooksTotal) && issuedBooksPage == old(issuedBooksPage)
    {
      error := Some(OrDefault(backendMessage, "Failed to issue book"));
      success := None;
    }

    /**
     * `onSearch(page = 1)` up to the call: with no user id the list and total
     * are cleared and nothing is requested (the page stays); otherwise the
     * page is set and that page of the user's issues is requested.
     */
    method OnSearch(page: int := 1) returns (req: Option<GetRequest>)
      modifies this
      ensures searchUserId == "" ==>
        req.None? && issuedBooks == [] && issuedBooksTotal == 0 && issuedBooksPage == old(issuedBooksPage)
      ensures searchUserId != "" ==>
        && issuedBooksPage == page && issuedBooks == old(issuedBooks) && issuedBooksTotal == old(issuedBooksTotal)
        && req.Some? && req.value.url == ByUserUrl(searchUserId)
        && req.value.params.Keys == {"offset", "limit"}
        && req.value.params["offset"] == IntToString(page)
        && req.value.params["limit"] == IntToString(issuedBooksPageSize)
      ensures searchUserId == old(searchUserId) && error == old(error) && success == old(success)
    {
      if searchUserId == "" {
        issuedBooks := [];
        issuedBooksTotal := 0;
        return None;
      }
      issuedBooksPage := page;
      var r := GetIssuedBooksByUser(searchUserId, issuedBooksPage, issuedBooksPageSize);
      req := Some(r);
    }

    /** The search succeeded: the returned page and total are stored. */
    method OnSearchSuccess(data: seq<BookIssue>, total: int)
      modifies this
      ensures issuedBooks == data && issuedBooksTotal == total
      ensures searchUserId == old(searchUserId) && issuedBooksPage == old(issuedBooksPage)
      ensures error == old(error) && success == old(success)
    {
      issuedBooks := data;
      issuedBooksTotal := total;
    }

    /** The search failed: list and total cleared, the backend message or 'Failed to fetch issued books' shown. */
    method OnSearchError(backendMessage: Option<string>)
      modifies this
      ensures issuedBooks == [] && issuedBooksTotal == 0
      ensures error == Some(OrDefault(backendMessage, "Failed to fetch issued books"))
      ensures searchUserId == old(searchUserId) && issuedBooksPage == old(issuedBooksPage) && success == old(success)
    {
      issuedBooks := [];
      issuedBooksTotal := 0;
      error := Some(OrDefault(backendMessage, "Failed to fetch issued books"));
    }

    /** `onIssuedBooksPageChange(page)`: exactly `onSearch(page)`. */
    method OnIssuedBooksPageChange(page: int) returns (req: Option<GetRequest>)
      modifies this
      ensures searchUserId == "" ==>
        req.None? && issuedBooks == [] && issuedBooksTotal == 0 && issuedBooksPage == old(issuedBooksPage)
      ensures searchUserId != "" ==>
        && issuedBooksPage == page && issuedBooks == old(issuedBooks) && issuedBooksTotal == old(issuedBooksTotal)
        && req.Some? && req.value.url == ByUserUrl(searchUserId)
        && req.value.params.Keys == {"offset", "limit"}
        && req.value.params["offset"] == IntToString(page)
        && req.value.params["limit"] == IntToString(issuedBooksPageSize)
      ensures searchUserId == old(searchUserId) && error == old(error) && success == old(success)
    {
      req := OnSearch(page);
    }
  }
}
