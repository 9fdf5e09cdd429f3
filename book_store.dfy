/**
 * `BookService` of src/app/services: a book repository kept in the
 * `library_books` slot of the browser's localStorage.
 */
module BookStore {
  import opened Wrappers
  import opened Seqs
  import opened TopicStore

  datatype Book = Book(id: int, title: string, author: string, topic: seq<Topic>)

  function BookId(b: Book): int { b.id }

  function BookIds(s: seq<Book>): (ids: seq<int>)
    ensures |ids| == |s| && forall i :: 0 <= i < |s| ==> ids[i] == s[i].id
  {
    seq(|s|, i requires 0 <= i < |s| => s[i].id)
  }

  /** `book.topic.some(topic => topic.id === topicId)`. */
  predicate HasTopic(b: Book, topicId: int) {
    exists i | 0 <= i < |b.topic| :: b.topic[i].id == topicId
  }

  /** The books having a topic with that id, in store order. */
  function BooksWithTopic(books: seq<Book>, topicId: int): (r: seq<Book>)
    ensures forall i :: 0 <= i < |r| ==> r[i] in books && HasTopic(r[i], topicId)
    ensures forall i :: 0 <= i < |books| && HasTopic(books[i], topicId) ==> books[i] in r
  {
    Filter(books, b => HasTopic(b, topicId))
  }

  /** Selection by topic keeps store order: it distributes over concatenation. */
  lemma BooksWithTopicConcat(a: seq<Book>, b: seq<Book>, topicId: int)
    ensures BooksWithTopic(a + b, topicId) == BooksWithTopic(a, topicId) + BooksWithTopic(b, topicId)
  {
    FilterConcat(a, b, x => HasTopic(x, topicId));
  }

  /** The books written when the slot is absent. */
  const InitialBooks: seq<Book> := [
    Book(1, "Sample Book", "John Doe", [
      Topic(1, "Fiction", "Fictional literature"),
      Topic(2, "Non-Fiction", "Non-fictional literature")
    ]),
    Book(2, "Another Book", "Jane Smith", [
      Topic(1, "Fiction", "Fictional literature")
    ])
  ]

  class BookService {
    /** The localStorage slot: absent, or the stored (serialised) list. */
    var slot: Option<seq<Book>>

    /** Seeds the slot only when it is absent; an existing slot is left as it is. */
    constructor (existing: Option<seq<Book>>)
      ensures existing.None? ==> slot == Some(InitialBooks)
      ensures existing.Some? ==> slot == existing
    {
      if existing.None? {
        slot := Some(InitialBooks);
      } else {
        slot := existing;
      }
    }

    /** `getBooksFromStorage` (and what `getBooks` emits): an absent slot reads as the empty list. */
    function GetBooksFromStorage(): (books: seq<Book>)
      reads this
      ensures slot.None? ==> books == []
      ensures slot.Some? ==> books == slot.value
    {
      slot.GetOr([])
    }

    /** `getBook(id)`: the first stored book with that id, if any. */
    function GetBook(id: int): (r: Option<Book>)
      reads this
      ensures r.None? <==> forall i :: 0 <= i < |GetBooksFromStorage()| ==> GetBooksFromStorage()[i].id != id
      ensures r.Some? ==> r.value.id == id
      ensures r.Some? ==> exists i :: (0 <= i < |GetBooksFromStorage()| && GetBooksFromStorage()[i] == r.value
        && forall j :: 0 <= j < i ==> GetBooksFromStorage()[j].id != id)
    {
      var s := GetBooksFromStorage();
      var i := FirstIndexWithKey(s, BookId, id);
      if i < 0 then None else Some(s[i])
    }

    /**
     * `createBook(book)`: the book gets id max + 1 (1 for an empty store),
     * is appended after the unchanged earlier entries, and is returned with that id.
     */
    method CreateBook(book: Book) returns (created: Book)
      modifies this
      ensures created == book.(id := NextId(BookIds(old(GetBooksFromStorage()))))
      ensures forall b :: b in old(GetBooksFromStorage()) ==> b.id < created.id
      ensures slot == Some(old(GetBooksFromStorage()) + [created])
    {
      var books := GetBooksFromStorage();
      created := book.(id := NextId(BookIds(books)));
      books := books + [created];
      slot := Some(books);
    }

    /** `deleteBook(id)`: stores the list without the books having that id. */
    method DeleteBook(id: int)
      modifies this
      ensures slot == Some(RemoveKey(old(GetBooksFromStorage()), BookId, id))
    {
      slot := Some(RemoveKey(GetBooksFromStorage(), BookId, id));
    }

    /** `getBooksByTopic(topicId)`. */
    function GetBooksByTopic(topicId: int): (r: seq<Book>)
      reads this
      ensures r == BooksWithTopic(GetBooksFromStorage(), topicId)
    {
      BooksWithTopic(GetBooksFromStorage(), topicId)
    }
  }
}
