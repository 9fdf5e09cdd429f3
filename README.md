# Library management front end — a Dafny model

This project models the client-side logic of an Angular front end for a
library: the paginated, searchable and inline-editable customer list and its
page selector; the query-parameter builders of the books, topics and
book-issue REST services; the two localStorage-backed repositories of books
and topics; the leading-space validator and the input directive that enforces
it; the Authorization-header interceptor; and the small rules inside the
book-list, book-create, edit-book, book-issue, issued-books-list and
verify-email components.

Each asynchronous HTTP call is split in two steps. A method builds the request
and records the state at that moment. A separate method applies a given reply
or error. The `subscribe` callbacks thereby become ordinary sequential
transitions, and replies are applied in whatever order they arrive. The two
localStorage services answer with `of(...)`, which emits at once, so the
components that use them call the service and apply the reply in the same
method.

Components and services whose fields change in place are classes. Their
methods state the whole new state: `UserList` compares a `View()` of all its
fields with `old(View())`. The derivation rules are functions, and lemmas
state their properties. Helper modules hold JavaScript's semantics:
- `Wrappers`: an `Option` type.
- `Seqs`: `filter` and `findIndex` by key, and the repositories' `max + 1` id rule.
- `Strings`: JavaScript truthiness for `|| default`, `startsWith` and
  `includes`, `trim` with the ECMAScript white-space set, `join`, and
  `Number.prototype.toString`, with a parser that proves the round trip.

In a few places the code does something other than what a reader might
expect, and the model follows the code:
- The user list does not discard a stale reply. The reply that arrives last
  is shown, even when it answers an older request (`UserList.OutOfOrderReplies`).
- A failed user-list load keeps the previous `totalPages`.
- `clearSearch` issues its reload before it resets `currentPage` to 1. That
  reload therefore asks for the previous page.
- The verify-email page checks for status 0 and for the backend's own
  message, but the auth service rethrows every failure as a plain `Error`.
  That error has neither, so the page only ever shows the invalid-response
  text or the default failure text (`VerifyEmail.VerifyEmailComponent.OnVerifyError`).

## Model

| member | source | states |
|---|---|---|
| UserList.LoadQuery | src/app/components/users/user-list/user-list.ts:86-93 | a load sends offset = currentPage, limit = pageSize and the current sort and search |
| UserList.ToggleSort | src/app/components/users/user-list/user-list.ts:124-127 | the result is always one of the two orders; it is 'name:desc' exactly when the input was 'name:asc' |
| UserList.ToggleSortTwice | src/app/components/users/user-list/user-list.ts:124-127 | toggling twice from either order gives that order back |
| UserList.PagesOrOne | src/app/components/users/user-list/user-list.ts:99 | `totalPages \|\| 1`: never 0; a present non-zero count is kept, and a missing or zero count becomes 1 |
| UserList.CommittedQuery | src/app/components/users/user-list/user-list.ts:78-82 | a null value gives ''; otherwise the result is the value without its leading and trailing white space, and it neither starts nor ends with white space |
| UserList.ReplaceFirst | src/app/components/users/user-list/user-list.ts:154-160 | the length is kept; the first row with the id becomes the replacement, and every other row is unchanged |
| UserList.UserList.constructor | src/app/components/users/user-list/user-list.ts:34-45 | the initial state: no rows, page 1 of 1, page size 10, empty search, 'name:asc', not loading, no error, no edit |
| UserList.UserList.LoadUsers | src/app/components/users/user-list/user-list.ts:85-93 | the request is LoadQuery of the old state; loading becomes true, error becomes null, and every other field is unchanged |
| UserList.UserList.ApplyLoadSuccess | src/app/components/users/user-list/user-list.ts:97-104 | with `content.data`, rows = data and totalPages = PagesOrOne; without it, no rows and one page; loading ends; nothing else changes |
| UserList.UserList.ApplyLoadError | src/app/components/users/user-list/user-list.ts:109-113 | the error is set, the rows are emptied and loading ends; totalPages and everything else are kept |
| UserList.UserList.CommitSearch | src/app/components/users/user-list/user-list.ts:78-82 | searchQuery = CommittedQuery(value) and currentPage = 1, then the reload is issued with offset 1 and that search |
| UserList.UserList.ClearSearch | src/app/components/users/user-list/user-list.ts:117-122 | the reload asks for the old currentPage with an empty search; afterwards the search and its control are '' and currentPage is 1 |
| UserList.UserList.OnSort | src/app/components/users/user-list/user-list.ts:124-127 | the sort is toggled and a reload of the same page is issued with the new sort |
| UserList.UserList.OnPageChange | src/app/components/users/user-list/user-list.ts:129-132 | currentPage = page, and a reload with offset = page is issued |
| UserList.UserList.StartEdit | src/app/components/users/user-list/user-list.ts:134-140 | the row's id, name and email go into the edit state; nothing else changes |
| UserList.UserList.CancelEdit | src/app/components/users/user-list/user-list.ts:142-145 | the edit id and both form values become null; the rows are untouched |
| UserList.UserList.SaveEdit | src/app/components/users/user-list/user-list.ts:147-151 | no request exactly when the form is invalid or no non-empty id is being edited; otherwise an update of that id with the form values |
| UserList.UserList.ApplySaveSuccess | src/app/components/users/user-list/user-list.ts:153-163 | the returned record replaces the first row with the editUserId current at that moment; then the edit is cancelled and a reload is issued |
| UserList.UserList.ApplySaveError | src/app/components/users/user-list/user-list.ts:165-167 | only the error changes; the edit session is kept |
| UserList.UserList.DeleteUser | src/app/components/users/user-list/user-list.ts:171-173 | the delete of that id is requested exactly when the deletion is confirmed |
| UserList.UserList.ApplyDeleteSuccess | src/app/components/users/user-list/user-list.ts:174-176 | exactly the rows with that id are removed, and the rest keep their order (see Seqs.RemoveKeyConcat) |
| UserList.UserList.ApplyDeleteError | src/app/components/users/user-list/user-list.ts:177-179 | only the error changes; the rows are kept |
| UserList.OutOfOrderReplies | src/app/components/users/user-list/user-list.ts:95-104 | when two loads are in flight and the older reply arrives last, the older reply's rows are shown |
| Pagination.PageWindow | src/app/common/pagination/pagination.ts:18-31 | consecutive ascending pages; empty exactly when max(1, current) > min(total, current + 2); otherwise from the first bound to the second |
| Pagination.PageWindowBounds | src/app/common/pagination/pagination.ts:20-25 | at most three pages, each in [1, totalPages] |
| Pagination.PageWindowStart | src/app/common/pagination/pagination.ts:21-29 | empty when currentPage > totalPages; when 1 <= currentPage <= totalPages it starts at currentPage |
| Pagination.WindowPagesAccepted | src/app/common/pagination/pagination.ts:33-34 | every shown page other than the current one passes the guard of changePage |
| Pagination.PaginationComponent.constructor | src/app/common/pagination/pagination.ts:14-15 | both inputs start at 1 |
| Pagination.PaginationComponent.SetInputs | src/app/common/pagination/pagination.ts:14-15 | the two inputs take the parent's values |
| Pagination.PaginationComponent.GetPages | src/app/common/pagination/pagination.ts:18-31 | the loop pushes exactly PageWindow(currentPage, totalPages) and changes no field |
| Pagination.PaginationComponent.ChangePage | src/app/common/pagination/pagination.ts:33-36 | nothing is emitted for page < 1, page > totalPages or the current page; otherwise exactly `page` once; no field changes |
| Strings.IntToString | src/app/components/books/book.service.ts:45-46 | `Number.prototype.toString` for integers: a leading '-' exactly for a negative number, then decimal digits without leading zeros, "0" only for 0 |
| Strings.ParseIntToString | src/app/components/books/book.service.ts:45-46 | the string form of an integer parses back to that integer |
| Strings.Trim | src/app/components/users/user-list/user-list.ts:79 | the result has no white space at either end and is the input with a white-space prefix and suffix removed |
| Strings.TrimIdempotent | src/app/components/users/user-list/user-list.ts:79 | trimming a trimmed string changes nothing |
| Strings.JoinSnoc | src/app/components/books/book-list/book-list.ts:46 | joining one more element appends the separator and that element |
| Strings.JoinLength | src/app/components/books/book-list/book-list.ts:46 | the joined string's length is the elements' lengths plus one separator between each two |
| ListQuery.NumberParam | src/app/components/books/book.service.ts:45-46 | an absent number gives the fallback; a present one gives its string form, which parses back to it |
| ListQuery.ListParamsKeys | src/app/components/topics/topic.service.ts:32-37 | the keys always include offset and limit, and every key is one of offset, limit, sort, search |
| ListQuery.ListParamsUnique | src/app/components/topics/topic.service.ts:32-37 | the query determines the parameters completely |
| ListQuery.BuildListParams | src/app/components/topics/topic.service.ts:32-37 | offset (default '1'), limit (default '10'), and sort and search exactly when non-empty, and no other key |
| BooksApi.GetBooks | src/app/components/books/book.service.ts:40-62 | GET api/books with the list parameters; includeDeleted = 'true' is present exactly when the flag is set, and no other key appears |
| BooksApi.GetAllBooks | src/app/components/books/book.service.ts:64-66 | the same request as getBooks(query, true) |
| BooksApi.BooksParamsUnique | src/app/components/books/book.service.ts:44-50 | the query and the flag determine the parameters completely |
| BooksApi.BooksParamsWithoutFlag | src/app/components/books/book.service.ts:42-50 | without the flag, the books parameters are exactly the plain list parameters |
| TopicsApi.GetTopics | src/app/components/topics/topic.service.ts:31-37 | GET api/topics with exactly the list parameters |
| TopicsApi.ActiveTopicsCountUrl | src/app/components/topics/topic.service.ts:102 | the topic statistics path followed by '?activeOnly=true' |
| BookIssueApi.AllIssuesUrl | src/app/components/book-issue-and-return/book-issue-return.ts:100 | the issues base path with '/all' appended |
| BookIssueApi.GetAllIssuedBooks | src/app/components/book-issue-and-return/book-issue-return.ts:79-92 | GET on the '/all' URL with exactly the list parameters |
| BookIssueApi.GetIssuedBooksByUser | src/app/components/book-issue-and-return/book-issue-return.ts:51-68 | GET on the user's URL with exactly offset and limit, the string forms of page and pageSize, which parse back to them |
| Seqs.RemoveKey | src/app/services/book.service.ts:57 | every kept element is from the input and has another key, and every element with another key is kept |
| Seqs.RemoveKeyConcat | src/app/services/book.service.ts:57 | removal distributes over concatenation, so the survivors keep their order |
| Seqs.RemoveKeyCount | src/app/services/book.service.ts:57 | each survivor keeps its multiplicity, and elements with the key vanish |
| Seqs.RemoveKeyIdempotent | src/app/services/book.service.ts:56-59 | deleting the same id twice is the same as deleting it once |
| Seqs.FirstIndexWithKey | src/app/services/book.service.ts:44 | the first index with the key, or -1 exactly when no element has it |
| Seqs.Filter | src/app/services/book.service.ts:63 | every kept element is from the input and satisfies the test, and every element that satisfies it is kept |
| Seqs.FilterConcat | src/app/services/book.service.ts:63 | filtering distributes over concatenation: input order is kept |
| Seqs.FilterCount | src/app/services/book.service.ts:63 | a kept element keeps its multiplicity, and a dropped one vanishes |
| Seqs.NextId | src/app/services/book.service.ts:50 | the new id is greater than every stored id; it is 1 for an empty store and otherwise the maximum plus 1 |
| BookStore.BookService.constructor | src/app/services/book.service.ts:24-28 | the seed books are written only when the slot is absent; an existing slot is kept |
| BookStore.BookService.GetBooksFromStorage | src/app/services/book.service.ts:30-33 | an absent slot reads as the empty list |
| BookStore.BookService.GetBook | src/app/services/book.service.ts:43-46 | the first stored book with that id; none exactly when no book has it |
| BookStore.BookService.CreateBook | src/app/services/book.service.ts:48-54 | the book gets NextId of the stored ids, which differs from every one of them; it is appended after the unchanged earlier books and returned with that id |
| BookStore.BookService.DeleteBook | src/app/services/book.service.ts:56-60 | the slot holds the stored books without those having that id |
| BookStore.BookService.GetBooksByTopic | src/app/services/book.service.ts:62-64 | exactly BooksWithTopic of the stored books |
| BookStore.BooksWithTopic | src/app/services/book.service.ts:63 | exactly the books having a topic with that id |
| BookStore.BooksWithTopicConcat | src/app/services/book.service.ts:63 | the selection keeps store order |
| TopicStore.TopicService.constructor | src/app/services/topic.service.ts:19-24 | the seed topics are written only when the slot is absent |
| TopicStore.TopicService.GetTopicsFromStorage | src/app/services/topic.service.ts:26-29 | an absent slot reads as the empty list |
| TopicStore.TopicService.GetTopic | src/app/services/topic.service.ts:39-42 | the first stored topic with that id; none exactly when no topic has it |
| TopicStore.TopicService.CreateTopic | src/app/services/topic.service.ts:44-50 | the topic gets NextId of the stored ids, is appended after the unchanged earlier topics, and is returned with that id |
| TopicStore.TopicService.DeleteTopic | src/app/services/topic.service.ts:52-56 | the slot holds the stored topics without those having that id |
| EditBooks.ExtractTopicIds | src/app/components/books/edit-books/edit-books.ts:50-66 | None (a TypeError) exactly when the first element is null, or when it is an object with an id and some element is null; otherwise a first object with an id gives every element's id, in order; a first string gives the list itself; anything else, including a missing or empty list, gives [] |
| EditBooks.FirstElementDecides | src/app/components/books/edit-books/edit-books.ts:52-62 | whether the form gets an empty list depends only on the first element |
| EditBooks.ObjectIdsAreFlat | src/app/components/books/edit-books/edit-books.ts:58 | ids read from objects are id strings or undefined, never objects or nulls |
| EditBooks.GetTopicId | src/app/components/books/edit-books/edit-books.ts:113-115 | `id` if non-empty, else `_id`; '' exactly when both are empty |
| EditBooks.EditBookComponent.constructor | src/app/components/books/edit-books/edit-books.ts:22-38 | no topics, not loading, no error, and an empty form |
| EditBooks.EditBookComponent.NgOnInit | src/app/components/books/edit-books/edit-books.ts:41-44 | the book is requested and loading starts only when the route has an id |
| EditBooks.EditBookComponent.OnBookLoaded | src/app/components/books/edit-books/edit-books.ts:70-75 | the form takes the title, the author and the extracted topic ids and loading ends; when the extraction throws, the form is not patched and loading stays on |
| EditBooks.EditBookComponent.OnBookLoadError | src/app/components/books/edit-books/edit-books.ts:77-81 | always 'Failed to load book', since the books service rethrows a plain Error without `error.message`; loading ends |
| EditBooks.EditBookComponent.OnTopicsLoaded | src/app/components/books/edit-books/edit-books.ts:85-88 | the topics are stored; nothing else changes |
| EditBooks.EditBookComponent.OnTopicsLoadError | src/app/components/books/edit-books/edit-books.ts:89-92 | always 'Failed to load topics', for the same reason |
| EditBooks.EditBookComponent.OnSubmit | src/app/components/books/edit-books/edit-books.ts:96-100 | an update is requested exactly when the form is valid and the route has an id, and it carries the form's values |
| EditBooks.EditBookComponent.OnUpdateError | src/app/components/books/edit-books/edit-books.ts:104-106 | always 'Failed to update book', for the same reason |
| BookIssue.PageCount | src/app/components/book-issue-and-return/book-issue/book-issue.ts:100-102 | never 0; 1 when the ceiling of total / pageSize is 0, and otherwise that ceiling; hence at least 1 when total >= 0 |
| BookIssue.BookIssueComponent.constructor | src/app/components/book-issue-and-return/book-issue/book-issue.ts:33-39 | no error or success, empty search, no issues, total 0, page 1 |
| BookIssue.BookIssueComponent.SetSearchUserId | src/app/components/book-issue-and-return/book-issue/book-issue.ts:35 | the bound search box sets only `searchUserId` |
| BookIssue.BookIssueComponent.IssuedBooksTotalPages | src/app/components/book-issue-and-return/book-issue/book-issue.ts:100-102 | never 0, and at least 1 for a non-negative total |
| BookIssue.BookIssueComponent.OnSubmit | src/app/components/book-issue-and-return/book-issue/book-issue.ts:52-55 | the issue request is sent exactly when the form is valid |
| BookIssue.BookIssueComponent.OnIssueSuccess | src/app/components/book-issue-and-return/book-issue/book-issue.ts:56-58 | success = the server's message, and the error is cleared |
| BookIssue.BookIssueComponent.OnIssueError | src/app/components/book-issue-and-return/book-issue/book-issue.ts:62-65 | the backend message or 'Failed to issue book', and success is cleared |
| BookIssue.BookIssueComponent.OnSearch | src/app/components/book-issue-and-return/book-issue/book-issue.ts:70-83 | an empty user id clears the list and the total, makes no request and keeps the page; otherwise the page is set and that page of five is requested |
| BookIssue.BookIssueComponent.OnSearchSuccess | src/app/components/book-issue-and-return/book-issue/book-issue.ts:84-87 | the returned data and total are stored |
| BookIssue.BookIssueComponent.OnSearchError | src/app/components/book-issue-and-return/book-issue/book-issue.ts:88-92 | the list and total are cleared, and the backend message or 'Failed to fetch issued books' is shown |
| BookIssue.BookIssueComponent.OnIssuedBooksPageChange | src/app/components/book-issue-and-return/book-issue/book-issue.ts:96-98 | the same contract as OnSearch(page) |
| IssuedBooksList.Placeholders | src/app/components/book-issue-and-return/issued-books-list/issued-books-list.ts:37-41 | one row per issue, in order, titled 'Loading...', with the issue's date and status |
| IssuedBooksList.PatchTitle | src/app/components/book-issue-and-return/issued-books-list/issued-books-list.ts:46-49 | only the first row with that issue date takes the title; the dates, the statuses and all other titles stay; nothing changes when no row matches |
| IssuedBooksList.SharedDateTitlesFirstRow | src/app/components/book-issue-and-return/issued-books-list/issued-books-list.ts:46-49 | when two issues share a date, the later row is never titled |
| IssuedBooksList.IssuedBooksListComponent.constructor | src/app/components/book-issue-and-return/issued-books-list/issued-books-list.ts:16-19 | empty userId, no rows, not loading, no error |
| IssuedBooksList.IssuedBooksListComponent.SetUserId | src/app/components/book-issue-and-return/issued-books-list/issued-books-list.ts:16 | the userId input sets only `userId` |
| IssuedBooksList.IssuedBooksListComponent.LoadIssuedBooks | src/app/components/book-issue-and-return/issued-books-list/issued-books-list.ts:32-35 | nothing is loaded without a user id; otherwise loading starts and page 1 with size 5 is requested |
| IssuedBooksList.IssuedBooksListComponent.NgOnChanges | src/app/components/book-issue-and-return/issued-books-list/issued-books-list.ts:26-30 | a reload happens exactly when the userId input changed to a non-empty id, and it asks for page 1 with size 5; otherwise loading is unchanged |
| IssuedBooksList.IssuedBooksListComponent.OnIssuesLoaded | src/app/components/book-issue-and-return/issued-books-list/issued-books-list.ts:36-44 | the rows become Placeholders of the issues; loading ends; one book lookup per issue, in order |
| IssuedBooksList.IssuedBooksListComponent.OnBookTitle | src/app/components/book-issue-and-return/issued-books-list/issued-books-list.ts:45-50 | the rows become PatchTitle of the rows with the issue's date |
| IssuedBooksList.IssuedBooksListComponent.OnBookTitleError | src/app/components/book-issue-and-return/issued-books-list/issued-books-list.ts:51-53 | always 'Failed to load book title', since the books service rethrows a plain Error without `error.message`; the rows stay |
| IssuedBooksList.IssuedBooksListComponent.OnIssuesError | src/app/components/book-issue-and-return/issued-books-list/issued-books-list.ts:57-59 | the backend message or 'Failed to load issued books'; loading ends; the rows stay |
| NoLeadingSpaceValidation.NoLeadingSpaceValidator | src/app/common/custom-validatiors/no-leading-space.validator.ts:3-10 | an error exactly when the value is a string whose first character is the ASCII space, and then the {leadingSpace} map |
| NoLeadingSpaceValidation.ValidatorAccepts | src/app/common/custom-validatiors/no-leading-space.validator.ts:6-9 | non-strings, '', inner and trailing spaces and a leading tab pass; a leading space fails |
| NoLeadingSpaceInput.WithoutLeadingSpace | src/app/common/custom-directives/no-leading-space.directive.ts:24-28 | with a truthy leadingSpace error, exactly that key goes and every other error stays, and null when none is left; otherwise nothing changes |
| NoLeadingSpaceInput.WithoutLeadingSpaceClears | src/app/common/custom-directives/no-leading-space.directive.ts:24-28 | afterwards no leadingSpace error is set, and a second removal changes nothing |
| NoLeadingSpaceInput.NoLeadingSpaceDirective.constructor | src/app/common/custom-directives/no-leading-space.directive.ts:9 | the element and the control hold the initial value, the errors are those the control's own validators produced, and nothing is touched or dirty |
| NoLeadingSpaceInput.NoLeadingSpaceDirective.OnKeyDown | src/app/common/custom-directives/no-leading-space.directive.ts:11-31 | a space at caret 0 is prevented and sets exactly {leadingSpace}; another key on a non-empty value without a leading space removes only that error; the values never change |
| NoLeadingSpaceInput.NoLeadingSpaceDirective.OnPaste | src/app/common/custom-directives/no-leading-space.directive.ts:33-44 | pasted text starting with a space is prevented and sets {leadingSpace}; any other paste changes nothing |
| NoLeadingSpaceInput.NoLeadingSpaceDirective.OnInput | src/app/common/custom-directives/no-leading-space.directive.ts:47-67 | a value starting with a space blanks the element and the control and sets {leadingSpace}; otherwise it is copied, the control's validators give their errors for it, and the leading-space error is removed from those; the control's value never starts with a space |
| AuthInterceptor.Intercept | src/app/common/interceptors/auth.interceptor.ts:8-19 | unchanged unless a non-empty token is stored and the URL is not the login call; then only `Authorization: Bearer <token>` is set, and the URL and other headers are kept |
| AuthInterceptor.BearerHeaderIff | src/app/common/interceptors/auth.interceptor.ts:11-16 | for a request without the header, it is added exactly when a token is stored and the URL is not the login call |
| BookList.GetTopicNames | src/app/components/books/book-list/book-list.ts:45-47 | '' for no topics, and a single topic's genre by itself |
| BookList.TopicNamesSnoc | src/app/components/books/book-list/book-list.ts:45-47 | one more topic appends ', ' and its genre, so the genres appear in order |
| BookList.TopicNamesLength | src/app/components/books/book-list/book-list.ts:45-47 | the result holds only the genres and one ', ' between each two |
| BookList.BookListComponent.constructor | src/app/components/books/book-list/book-list.ts:16-21 | no books, and the given book service |
| BookList.BookListComponent.NgOnInit | src/app/components/books/book-list/book-list.ts:23-28 | the shown list is the stored list |
| BookList.BookListComponent.OnBooksLoaded | src/app/components/books/book-list/book-list.ts:25 | the shown list is the emitted list |
| BookList.BookListComponent.OnLoadError | src/app/components/books/book-list/book-list.ts:26 | a load error shows no books |
| BookList.BookListComponent.DeleteBook | src/app/components/books/book-list/book-list.ts:34-38 | the store and the shown list both drop every book with that id, and the others keep their order |
| BookList.BookListComponent.OnDeleted | src/app/components/books/book-list/book-list.ts:36-38 | every shown book with that id is dropped, and the rest keep their order |
| BookList.BookListComponent.OnDeleteError | src/app/components/books/book-list/book-list.ts:39-41 | 'Book not available' is raised and the list is kept |
| BookCreate.SelectTopics | src/app/components/books/book-create/book-create.ts:49 | exactly the loaded topics whose id is selected |
| BookCreate.SelectTopicsCount | src/app/components/books/book-create/book-create.ts:49 | a selected topic appears as often as it was loaded, so at most once for distinct topics; an unselected topic never appears |
| BookCreate.SelectTopicsOrder | src/app/components/books/book-create/book-create.ts:49 | the chosen topics come in loaded order |
| BookCreate.NewBookRecord | src/app/components/books/book-create/book-create.ts:45-50 | id 0, the form's title and author, and exactly the selected loaded topics |
| BookCreate.BookCreateComponent.constructor | src/app/components/books/book-create/book-create.ts:19-32 | no topics, no success banner, and the given book and topic services |
| BookCreate.BookCreateComponent.NgOnInit | src/app/components/books/book-create/book-create.ts:35-40 | the offered topics are the stored topics |
| BookCreate.BookCreateComponent.OnTopicsLoaded | src/app/components/books/book-create/book-create.ts:37 | the offered topics are the emitted list |
| BookCreate.BookCreateComponent.OnTopicsError | src/app/components/books/book-create/book-create.ts:38 | a load error offers no topics |
| BookCreate.BookCreateComponent.OnSubmit | src/app/components/books/book-create/book-create.ts:42-58 | an invalid form creates nothing; a valid one appends the record with the next free id and shows success |
| BookCreate.BookCreateComponent.OnCreated | src/app/components/books/book-create/book-create.ts:52-53 | the success banner shows and the topics stay |
| BookCreate.BookCreateComponent.OnCreateError | src/app/components/books/book-create/book-create.ts:60-62 | success is hidden |
| VerifyEmail.ChooseErrorMessage | src/app/components/authentication/verify-email/verify-email.ts:59-66 | the error callback's chain over an error object, in priority order: status 0 gives the connection message; then 'Unexpected token' in the message gives the invalid-response message; then a non-empty backend message; then the default; never '' |
| VerifyEmail.VerifyEmailComponent.constructor | src/app/components/authentication/verify-email/verify-email.ts:15-19 | empty email, token and messages; not verifying |
| VerifyEmail.VerifyEmailComponent.NgOnInit | src/app/components/authentication/verify-email/verify-email.ts:27-31 | email and token come from the query string, '' when absent |
| VerifyEmail.VerifyEmailComponent.SetToken | src/app/components/authentication/verify-email/verify-email.ts:16 | the bound token input sets only `token` |
| VerifyEmail.VerifyEmailComponent.OnVerify | src/app/components/authentication/verify-email/verify-email.ts:33-42 | an empty token sets 'Please enter a verification token.', clears success and sends nothing; otherwise verifying starts with both messages '' and the token is sent |
| VerifyEmail.VerifyEmailComponent.OnVerifySuccess | src/app/components/authentication/verify-email/verify-email.ts:43-46 | verifying ends; the rendered reply, or the default success text when it renders to nothing |
| VerifyEmail.VerifyEmailComponent.OnVerifyError | src/app/components/authentication/verify-email/verify-email.ts:51-69 | verifying ends and success is ''; the handler sees only the service's wrapped Error, so the message is the invalid-response one when the wrapped text mentions 'Unexpected token' and the default otherwise, never the connection message or the backend's own text |
| VerifyEmail.WrappedError | src/app/services/auth.service.ts:136-138 | the rethrown Error has no status and no body; its message is the reply's message, or 'Email verification failed' when there is none |

## Left out

- HTTP transport, rxjs piping, toastr and Router navigation are framework calls. Replies and errors are inputs to the response methods.
- Debounce, distinct-until-changed and every `setTimeout` are timer-driven. Only the callback after the debounce is modelled (`CommitSearch`). The delayed resets after a book is created or issued and the redirect after verification are not modelled.
- The `valueChanges` emission that `clearSearch`'s `setValue('')` would feed into the debounced search is not modelled.
- Console logging is not modelled, and neither is `JSON.stringify` of the verification reply. The rendered text is an input to `OnVerifySuccess`.
- Numbers are integers. NaN, fractions and the float division inside `Math.ceil` are not modelled. `Strings.IntToString` gives plain decimal digits for every integer, while `Number.prototype.toString` switches to exponent form ("1e+21") from an absolute value of 10^21 on. `PageCount` requires a positive page size; the component always uses 5.
- BookStore.BookService.CreateBook: the caller's record is not mutated in place. The model returns a copy with the new id, so aliasing is not captured. The same holds for TopicStore.TopicService.CreateTopic.
- BookStore.BookService.GetBook: a missing book is `None`. The source hands `undefined` on through a non-null assertion.
- The localStorage slot holds the decoded list. JSON encoding and storage errors are not modelled. The source treats an empty stored string as absent, which a list's serialised form never is.
- The error callbacks of the two localStorage services can never fire, because `of(...)` does not fail. The callbacks are still modelled as separate methods (`BookList.BookListComponent.OnLoadError`, `BookList.BookListComponent.OnDeleteError`, `BookCreate.BookCreateComponent.OnTopicsError`, `BookCreate.BookCreateComponent.OnCreateError`).
- EditBooks.EditBookComponent.OnTopicsLoaded: only the array reply of `getTopics` is modelled. The paged `{data, total}` shape, which the component would also store as its topic list, is not.
- BookList.BookListComponent.OnDeleteError: the thrown `Error` is returned as its message. Exception propagation is not modelled.
- EditBooks.ExtractTopicIds: an object with a missing id and one with an empty id are both `TopicObject("")`, so the `map` yields `TopicIdString("")` for either. A later element that is neither an object nor null maps to `OtherEntry`, which stands for `undefined`. A thrown TypeError is the result `None`; what Angular does with the uncaught error is not modelled.
- Angular form validity (`Validators.required`) is an input of the submit methods. Revalidation after `setValue` is not modelled.
- NoLeadingSpaceInput.NoLeadingSpaceDirective.OnInput: the control's own validators are not modelled. What they give for the new value after `setValue` is an input (`revalidated`).
- NoLeadingSpaceInput.NoLeadingSpaceDirective: the bound control is assumed to exist. The branches where `control.control` is null are not modelled.
- The directive's keydown handler reads the element's current value. The DOM event itself is reduced to the key, the caret position and the pasted text.
- AuthInterceptor.Intercept: header names are compared exactly, not case-insensitively. That `next` is called once with the forwarded request holds by construction and is not stated separately.
- The login-form unit test is stale: it names methods and a field that the login component does not have. It is not used.
