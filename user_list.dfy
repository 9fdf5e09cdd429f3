/**
 * The paginated, searchable, sortable, inline-editable user list
 * (`UserList`). Every HTTP call is split in two: the method that issues it
 * returns the request and records the state at that moment; a separate
 * method applies the response (or the error) when it arrives. Responses
 * are applied in arrival order: nothing discards a stale reply.
 */
module UserList {
  import opened Wrappers
  import opened Seqs
  import opened Strings
  import opened ListQuery

  /** A customer record: its identifier and the two fields the inline editor touches. */
  datatype Customer = Customer(id: string, name: string, email: string)

  function CustomerId(c: Customer): string { c.id }

  /** The `content` of a list reply: the rows and the page count, either of which may be missing. */
  datatype PageContent = PageContent(data: Option<seq<Customer>>, totalPages: Option<int>)

  /** A list reply: `content` may be missing. */
  datatype ListResponse = ListResponse(content: Option<PageContent>)

  /** The body of an update call: the target id and the edit form's values (null after a reset). */
  datatype UpdateRequest = UpdateRequest(id: string, name: Option<string>, email: Option<string>)

  /** Every field of the component, for stating what a transition leaves alone. */
  datatype ListState = ListState(
    users: seq<Customer>,
    currentPage: int,
    totalPages: int,
    pageSize: int,
    searchQuery: string,
    sort: string,
    loading: bool,
    error: Option<string>,
    editUserId: Option<string>,
    editName: Option<string>,
    editEmail: Option<string>,
    searchControlValue: Option<string>)

  const SortAsc: string := "name:asc"
  const SortDesc: string := "name:desc"

  /** The query a load sends: the current page, page size, sort and search. */
  function LoadQuery(s: ListState): (q: PaginationQuery)
    ensures q.offset == Some(s.currentPage) && q.limit == Some(s.pageSize)
    ensures q.sort == Some(s.sort) && q.search == Some(s.searchQuery)
  {
    PaginationQuery(Some(s.currentPage), Some(s.pageSize), Some(s.sort), Some(s.searchQuery))
  }

  /** `sort === 'name:asc' ? 'name:desc' : 'name:asc'`. */
  function ToggleSort(sort: string): (r: string)
    ensures r == SortAsc || r == SortDesc
    ensures r == SortDesc <==> sort == SortAsc
  {
    if sort == SortAsc then SortDesc else SortAsc
  }

  /** Toggling twice from either sort order gives that order back. */
  lemma ToggleSortTwice(sort: string)
    requires sort == SortAsc || sort == SortDesc
    ensures ToggleSort(ToggleSort(sort)) == sort
  {
  }

  /** `totalPages || 1`: a missing or zero page count becomes 1. */
  function PagesOrOne(totalPages: Option<int>): (r: int)
    ensures r != 0
    ensures totalPages.Some? && totalPages.value != 0 ==> r == totalPages.value
    ensures totalPages.None? || totalPages.value == 0 ==> r == 1
  {
    if totalPages.Some? && totalPages.value != 0 then totalPages.value else 1
  }

  /** `value ? value.trim() : ''`: the search text a debounced commit stores. */
  function CommittedQuery(value: Option<string>): (q: string)
    ensures q == [] || (!IsJsWhitespace(q[0]) && !IsJsWhitespace(q[|q| - 1]))
    ensures value.None? ==> q == ""
    ensures value.Some? ==> exists a :: TrimsTo(value.value, q, a)
  {
    if value.Some? && value.value != "" then Trim(value.value)
    else assert value.Some? ==> TrimsTo(value.value, "", 0); ""
  }

  /** j is the first row whose id is the (present) id. */
  predicate IsFirstWithId(users: seq<Customer>, j: int, id: Option<string>) {
    && 0 <= j < |users| && id.Some? && users[j].id == id.value
    && forall k :: 0 <= k < j ==> users[k].id != id.value
  }

  /**
   * `users[findIndex(u => u.id === editUserId)] = replacement` when found:
   * only the first row with that id is replaced, all others are unchanged,
   * and with no such row (or no id) nothing changes.
   */
  function ReplaceFirst(users: seq<Customer>, id: Option<string>, replacement: Customer): (r: seq<Customer>)
    ensures |r| == |users|
    ensures forall j :: 0 <= j < |users| && r[j] != users[j] ==> IsFirstWithId(users, j, id) && r[j] == replacement
    ensures forall j :: IsFirstWithId(users, j, id) ==> r[j] == replacement
  {
    var idx := if id.Some? then FirstIndexWithKey(users, CustomerId, id.value) else -1;
    if 0 <= idx then users[idx := replacement] else users
  }

  class UserList {
    var users: seq<Customer>
    var currentPage: int
    var totalPages: int
    var pageSize: int
    var searchQuery: string
    var sort: string
    var loading: bool
    var error: Option<string>
    var editUserId: Option<string>
    /** The edit form's two controls. */
    var editName: Option<string>
    var editEmail: Option<string>
    /** The search box's control value. */
    var searchControlValue: Option<string>

    function View(): ListState
      reads this
    {
      ListState(users, currentPage, totalPages, pageSize, searchQuery, sort, loading, error,
                editUserId, editName, editEmail, searchControlValue)
    }

    constructor ()
      ensures View() == ListState([], 1, 1, 10, "", SortAsc, false, None, None, Some(""), Some(""), Some(""))
    {
      users, currentPage, totalPages, pageSize := [], 1, 1, 10;
      searchQuery, sort, loading, error := "", SortAsc, false, None;
      editUserId, editName, editEmail, searchControlValue := None, Some(""), Some(""), Some("");
    }

    /** `loadUsers` up to the call: loading on, error cleared, the current query sent. */
    method LoadUsers() returns (req: PaginationQuery)
      modifies this
      ensures req == LoadQuery(old(View()))
      ensures View() == old(View()).(loading := true, error := None)
    {
      loading := true;
      error := None;
      req := PaginationQuery(Some(currentPage), Some(pageSize), Some(sort), Some(searchQuery));
    }

    /**
     * The `next` callback of `loadUsers`: with `content.data` the rows and
     * `totalPages || 1` are taken, otherwise no rows and one page; loading ends.
     */
    method ApplyLoadSuccess(response: ListResponse)
      modifies this
      ensures response.content.Some? && response.content.value.data.Some? ==>
        View() == old(View()).(users := response.content.value.data.value,
                               totalPages := PagesOrOne(response.content.value.totalPages),
                               loading := false)
      ensures !(response.content.Some? && response.content.value.data.Some?) ==>
        View() == old(View()).(users := [], totalPages := 1, loading := false)
    {
      if response.content.Some? && response.content.value.data.Some? {
        users := response.content.value.data.value;
        totalPages := PagesOrOne(response.content.value.totalPages);
      } else {
        users := [];
        totalPages := 1;
      }
      loading := false;
    }

    /** The `error` callback of `loadUsers`: rows cleared, error shown, the page count kept. */
    method ApplyLoadError(message: string)
      modifies this
      ensures View() == old(View()).(error := Some(message), users := [], loading := false)
    {
      error := Some(message);
      users := [];
      loading := false;
    }

    /** The debounced search commit: store the trimmed text, go back to page 1, reload. */
    method CommitSearch(value: Option<string>) returns (req: PaginationQuery)
      modifies this
      ensures View() == old(View()).(searchQuery := CommittedQuery(value), currentPage := 1,
                                     loading := true, error := None)
      ensures req.offset == Some(1) && req.search == Some(CommittedQuery(value))
      ensures req == LoadQuery(View())
    {
      searchQuery := if value.Some? && value.value != "" then Trim(value.value) else "";
      currentPage := 1;
      req := LoadUsers();
    }

    /** `clearSearch`: the reload is issued before `currentPage` is reset, so it asks for the old page. */
    method ClearSearch() returns (req: PaginationQuery)
      modifies this
      ensures req == LoadQuery(old(View()).(searchQuery := ""))
      ensures req.offset == Some(old(currentPage))
      ensures View() == old(View()).(searchQuery := "", searchControlValue := Some(""), currentPage := 1,
                                     loading := true, error := None)
    {
      searchQuery := "";
      searchControlValue := Some("");
      req := LoadUsers();
      currentPage := 1;
    }

    /** `onSort`: flips the name order and reloads (on the same page). */
    method OnSort() returns (req: PaginationQuery)
      modifies this
      ensures View() == old(View()).(sort := ToggleSort(old(sort)), loading := true, error := None)
      ensures req == LoadQuery(View())
    {
      sort := if sort == SortAsc then SortDesc else SortAsc;
      req := LoadUsers();
    }

    /** `onPageChange(page)`: moves to the page and reloads. */
    method OnPageChange(page: int) returns (req: PaginationQuery)
      modifies this
      ensures View() == old(View()).(currentPage := page, loading := true, error := None)
      ensures req == LoadQuery(View()) && req.offset == Some(page)
    {
      currentPage := page;
      req := LoadUsers();
    }

    /** `startEdit(user)`: this row becomes the one being edited, its fields copied into the form. */
    method StartEdit(user: Customer)
      modifies this
      ensures View() == old(View()).(editUserId := Some(user.id), editName := Some(user.name),
                                     editEmail := Some(user.email))
    {
      editUserId := Some(user.id);
      editName, editEmail := Some(user.name), Some(user.email);
    }

    /** `cancelEdit`: no row is being edited and the form is reset; the rows are untouched. */
    method CancelEdit()
      modifies this
      ensures View() == old(View()).(editUserId := None, editName := None, editEmail := None)
    {
      editUserId := None;
      editName, editEmail := None, None;
    }

    /**
     * `saveEdit` up to the call: nothing when the form is invalid or no
     * (non-empty) id is being edited; otherwise the update of that id with
     * the form's values. The state is not changed.
     */
    method SaveEdit(formValid: bool) returns (req: Option<UpdateRequest>)
      ensures req.None? <==> !formValid || editUserId.None? || editUserId.value == ""
      ensures req.Some? ==> req.value == UpdateRequest(editUserId.value, editName, editEmail)
    {
      if !formValid || editUserId.None? || editUserId.value == "" {
        return None;
      }
      req := Some(UpdateRequest(editUserId.value, editName, editEmail));
    }

    /**
     * The `next` callback of `saveEdit`: the returned record replaces the
     * first row whose id is the `editUserId` current when the reply arrives;
     * then the edit is cancelled and the list reloaded.
     */
    method ApplySaveSuccess(data: Option<Customer>) returns (req: PaginationQuery)
      modifies this
      ensures View() == old(View()).(
        users := if data.Some? then ReplaceFirst(old(users), old(editUserId), data.value) else old(users),
        editUserId := None, editName := None, editEmail := None,
        loading := true, error := None)
      ensures req == LoadQuery(View())
    {
      if data.Some? {
        var idx := if editUserId.Some? then FirstIndexWithKey(users, CustomerId, editUserId.value) else -1;
        if idx != -1 {
          users := users[idx := data.value];
        }
      }
      CancelEdit();
      req := LoadUsers();
    }

    /** The `error` callback of `saveEdit`: the error is shown and the edit session kept. */
    method ApplySaveError(message: string)
      modifies this
      ensures View() == old(View()).(error := Some(message))
    {
      error := Some(message);
    }

    /** `deleteUser(id)` up to the call: the delete of that id is issued only when confirmed. */
    method DeleteUser(id: string, confirmed: bool) returns (req: Option<string>)
      ensures req.Some? <==> confirmed
      ensures req.Some? ==> req.value == id
    {
      if confirmed {
        req := Some(id);
      } else {
        req := None;
      }
    }

    /** The `next` callback of `deleteUser`: every row with that id is dropped, the rest keep their order. */
    method ApplyDeleteSuccess(id: string)
      modifies this
      ensures View() == old(View()).(users := RemoveKey(old(users), CustomerId, id))
    {
      users := RemoveKey(users, CustomerId, id);
    }

    /** The `error` callback of `deleteUser`: the rows are kept. */
    method ApplyDeleteError(message: string)
      modifies this
      ensures View() == old(View()).(error := Some(message))
    {
      error := Some(message);
    }
  }

  /**
   * Two loads in flight whose replies arrive out of order: the reply that
   * arrives last is shown, even though it answers the older request.
   */
  method OutOfOrderReplies(list: UserList, older: seq<Customer>, newer: seq<Customer>)
    modifies list
    ensures list.users == older && !list.loading
  {
    var first := list.OnPageChange(1);
    var second := list.OnPageChange(2);
    list.ApplyLoadSuccess(ListResponse(Some(PageContent(Some(newer), Some(3)))));
    list.ApplyLoadSuccess(ListResponse(Some(PageContent(Some(older), Some(3)))));
    assert list.currentPage == 2;
  }
}
