/** `BookListComponent`: shows the stored books and deletes one by id. */
module BookList {
  import opened Wrappers
  import opened Strings
  import opened Seqs
  import opened TopicStore
  import opened BookStore

  /** The genres of the topics, in order. */
  function Genres(topics: seq<Topic>): (gs: seq<string>)
    ensures |gs| == |topics| && forall i :: 0 <= i < |topics| ==> gs[i] == topics[i].genre
  {
    seq(|topics|, i requires 0 <= i < |topics| => topics[i].genre)
  }

  /** `getTopicNames(topics)`: the genres joined with ", ". */
  function GetTopicNames(topics: seq<Topic>): (r: string)
    ensures topics == [] ==> r == ""
    ensures |topics| == 1 ==> r == topics[0].genre
  {
    Join(Genres(topics), ", ")
  }

  /** One more topic appends ", " and its genre: the genres appear in topic order. */
  lemma TopicNamesSnoc(topics: seq<Topic>, t: Topic)
    requires topics != []
    ensures GetTopicNames(topics + [t]) == GetTopicNames(topics) + ", " + t.genre
  {
    assert Genres(topics + [t]) == Genres(topics) + [t.genre];
    JoinSnoc(Genres(topics), t.genre, ", ");
  }

  /** Nothing but the genres and one ", " between each two. */
  lemma TopicNamesLength(topics: seq<Topic>)
    requires topics != []
    ensures |GetTopicNames(topics)| == TotalLength(Genres(topics)) + 2 * (|topics| - 1)
  {
    JoinLength(Genres(topics), ", ");
  }

  /** The error the delete callback throws. */
  const BookNotAvailable: string := "Book not available"

  class BookListComponent {
    const bookService: BookService
    var books: seq<Book>

    constructor (service: BookService)
      ensures bookService == service && books == []
    {
      bookService := service;
      books := [];
    }

    /** `ngOnInit`: the service emits the stored list at once, and it is shown. */
    method NgOnInit()
      modifies this
      ensures books == bookService.GetBooksFromStorage()
    {
      OnBooksLoaded(bookService.GetBooksFromStorage());
    }

    method OnBooksLoaded(loaded: seq<Book>)
      modifies this
      ensures books == loaded
    {
      books := loaded;
    }

    /** The load error callback shows no books. */
    method OnLoadError()
      modifies this
      ensures books == []
    {
      books := [];
    }

    /**
     * `deleteBook(id)`: the store drops every book with that id, then the
     * shown list does the same and keeps the rest in order.
     */
    method DeleteBook(id: int)
      modifies this, bookService
      ensures bookService.slot == Some(RemoveKey(old(bookService.GetBooksFromStorage()), BookId, id))
      ensures books == RemoveKey(old(books), BookId, id)
    {
      bookService.DeleteBook(id);
      OnDeleted(id);
    }

    method OnDeleted(id: int)
      modifies this
      ensures books == RemoveKey(old(books), BookId, id)
    {
      books := RemoveKey(books, BookId, id);
    }

    /** The delete error callback raises "Book not available" and leaves the list. */
    method OnDeleteError() returns (raised: string)
      ensures raised == BookNotAvailable
    {
      raised := BookNotAvailable;
    }
  }
}
