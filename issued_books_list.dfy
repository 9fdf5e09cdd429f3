/** `IssuedBooksListComponent`: one user's first five issues, each titled by a follow-up book lookup. */
module IssuedBooksList {
  import opened Wrappers
  import opened Strings
  import opened Seqs
  import opened ListQuery
  import opened BookIssueApi

  /** One displayed row. */
  datatype IssuedRow = IssuedRow(bookTitle: string, issueDate: string, status: string)

  const LoadingTitle: string := "Loading..."
  /** The list shows the first page of this many issues. */
  const ListPageSize: int := 5

  function RowDate(r: IssuedRow): string { r.issueDate }

  /** The rows shown before any title arrives: one per issue, in order, titled "Loading...". */
  function Placeholders(data: seq<BookIssue>): (rows: seq<IssuedRow>)
    ensures |rows| == |data|
    ensures forall i :: 0 <= i < |rows| ==>
      rows[i] == IssuedRow(LoadingTitle, data[i].issueDate, data[i].status)
  {
    seq(|data|, i requires 0 <= i < |data| => IssuedRow(LoadingTitle, data[i].issueDate, data[i].status))
  }

  /**
   * A title reply for the issue with this date: the first row with that date
   * gets the title, and nothing changes when no row has it.
   */
  function PatchTitle(rows: seq<IssuedRow>, issueDate: string, title: string): (r: seq<IssuedRow>)
    ensures |r| == |rows|
    ensures forall i :: 0 <= i < |r| ==> r[i].issueDate == rows[i].issueDate && r[i].status == rows[i].status
    ensures var k := FirstIndexWithKey(rows, RowDate, issueDate);
      forall i :: 0 <= i < |r| ==> r[i].bookTitle == (if i == k then title else rows[i].bookTitle)
  {
    var k := FirstIndexWithKey(rows, RowDate, issueDate);
    if k == -1 then rows else rows[k := rows[k].(bookTitle := title)]
  }

  /**
   * Rows are matched by date, not by issue: when two issues share a date,
   * both titles go to the earlier row and the later one keeps "Loading...".
   */
  lemma SharedDateTitlesFirstRow(rows: seq<IssuedRow>, i: int, j: int, t1: string, t2: string)
    requires 0 <= i < j < |rows| && rows[i].issueDate == rows[j].issueDate
    ensures PatchTitle(PatchTitle(rows, rows[j].issueDate, t1), rows[j].issueDate, t2)[j] == rows[j]
  {
    var d := rows[j].issueDate;
    assert RowDate(rows[i]) == d;
    assert RowDate(PatchTitle(rows, d, t1)[i]) == d;
  }

  class IssuedBooksListComponent {
    var userId: string
    var issuedBooks: seq<IssuedRow>
    var loading: bool
    var error: Option<string>

    constructor ()
      ensures userId == "" && issuedBooks == [] && !loading && error.None?
    {
      userId, issuedBooks, loading, error := "", [], false, None;
    }

    /** The `userId` input binding. */
    method SetUserId(id: string)
      modifies this
      ensures userId == id && issuedBooks == old(issuedBooks) && loading == old(loading) && error == old(error)
    {
      userId := id;
    }

    /** `loadIssuedBooks` up to the call: with a user id, loading starts and the first five issues are requested. */
    method LoadIssuedBooks() returns (req: Option<GetRequest>)
      modifies this
      ensures userId == "" ==> req.None? && loading == old(loading)
      ensures userId != "" ==>
        && loading && req.Some? && req.value.url == ByUserUrl(userId)
        && req.value.params.Keys == {"offset", "limit"}
        && req.value.params["offset"] == IntToString(1)
        && req.value.params["limit"] == IntToString(ListPageSize)
      ensures userId == old(userId) && issuedBooks == old(issuedBooks) && error == old(error)
    {
      if userId == "" {
        return None;
      }
      loading := true;
      var r := GetIssuedBooksByUser(userId, 1, ListPageSize);
      req := Some(r);
    }

    /** `ngOnChanges`: reloads only when the userId input changed to a non-empty id. */
    method NgOnChanges(userIdChanged: bool) returns (req: Option<GetRequest>)
      modifies this
      ensures req.Some? <==> userIdChanged && userId != ""
      ensures !(userIdChanged && userId != "") ==> loading == old(loading)
      ensures userIdChanged && userId != "" ==>
        && loading && req.value.url == ByUserUrl(userId)
        && req.value.params.Keys == {"offset", "limit"}
        && req.value.params["offset"] == IntToString(1)
        && req.value.params["limit"] == IntToString(ListPageSize)
      ensures userId == old(userId) && issuedBooks == old(issuedBooks) && error == old(error)
    {
      req := None;
      if userIdChanged && userId != "" {
        req := LoadIssuedBooks();
      }
    }

    /**
     * The issues arrived: placeholder rows replace the list, loading ends, and
     * one book lookup goes out per issue, in order, for its `bookId`.
     */
    method OnIssuesLoaded(data: seq<BookIssue>) returns (bookRequests: seq<string>)
      modifies this
      ensures issuedBooks == Placeholders(data) && !loading
      ensures |bookRequests| == |data| && forall i :: 0 <= i < |data| ==> bookRequests[i] == data[i].bookId
      ensures userId == old(userId) && error == old(error)
    {
      issuedBooks := Placeholders(data);
      loading := false;
      bookRequests := [];
      for n := 0 to |data|
        invariant |bookRequests| == n
        invariant forall i :: 0 <= i < n ==> bookRequests[i] == data[i].bookId
      {
        bookRequests := bookRequests + [data[n].bookId];
      }
    }

    /** A book lookup for `issue` answered: the first row with the issue's date takes the title. */
    method OnBookTitle(issue: BookIssue, title: string)
      modifies this
      ensures issuedBooks == PatchTitle(old(issuedBooks), issue.issueDate, title)
      ensures userId == old(userId) && loading == old(loading) && error == old(error)
    {
      var index := FirstIndexWithKey(issuedBooks, RowDate, issue.issueDate);
      if index != -1 {
        issuedBooks := issuedBooks[index := issuedBooks[index].(bookTitle := title)];
      }
    }

    /**
     * A book lookup failed. The books service turns every failure into a
     * plain `Error`, which has no `error.message`, so 'Failed to load book
     * title' is always shown; the rows stay.
     */
    method OnBookTitleError()
      modifies this
      ensures error == Some("Failed to load book title")
      ensures userId == old(userId) && issuedBooks == old(issuedBooks) && loading == old(loading)
    {
      error := Some("Failed to load book title");
    }

    /** Loading the issues failed: the backend message or 'Failed to load issued books'; loading ends. */
    method OnIssuesError(backendMessage: Option<string>)
      modifies this
      ensures error == Some(OrDefault(backendMessage, "Failed to load issued books")) && !loading
      ensures userId == old(userId) && issuedBooks == old(issuedBooks)
    {
      error := Some(OrDefault(backendMessage, "Failed to load issued books"));
      loading := false;
    }
  }
}
