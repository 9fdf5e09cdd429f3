/** `BookCreateComponent`: builds a book from the form and stores it. */
module BookCreate {
  import opened Wrappers
  import opened Seqs
  import opened TopicStore
  import opened BookStore

  /** `topics.filter(topic => selected.includes(topic.id))`. */
  function SelectTopics(topics: seq<Topic>, selected: seq<int>): (r: seq<Topic>)
    ensures forall i :: 0 <= i < |r| ==> r[i] in topics && r[i].id in selected
    ensures forall i :: 0 <= i < |topics| && topics[i].id in selected ==> topics[i] in r
  {
    Filter(topics, (t: Topic) => t.id in selected)
  }

  /** A selected topic appears as often as it is loaded, an unselected one never. */
  lemma SelectTopicsCount(topics: seq<Topic>, selected: seq<int>, t: Topic)
    ensures multiset(SelectTopics(topics, selected))[t] == if t.id in selected then multiset(topics)[t] else 0
  {
    FilterCount(topics, (x: Topic) => x.id in selected, t);
  }

  /** The chosen topics come in loaded order, not in the order they were selected. */
  lemma SelectTopicsOrder(a: seq<Topic>, b: seq<Topic>, selected: seq<int>)
    ensures SelectTopics(a + b, selected) == SelectTopics(a, selected) + SelectTopics(b, selected)
  {
    FilterConcat(a, b, (x: Topic) => x.id in selected);
  }

  /** The record `onSubmit` hands to the service: id 0 until the service assigns one. */
  function NewBookRecord(title: string, author: string, topics: seq<Topic>, selected: seq<int>): (b: Book)
    ensures b.id == 0 && b.title == title && b.author == author
    ensures forall i :: 0 <= i < |b.topic| ==> b.topic[i] in topics && b.topic[i].id in selected
    ensures forall i :: 0 <= i < |topics| && topics[i].id in selected ==> topics[i] in b.topic
  {
    Book(0, title, author, SelectTopics(topics, selected))
  }

  class BookCreateComponent {
    const bookService: BookService
    const topicService: TopicService
    var topics: seq<Topic>
    var showSuccess: bool

    constructor (books: BookService, topicStore: TopicService)
      ensures bookService == books && topicService == topicStore
      ensures topics == [] && !showSuccess
    {
      bookService, topicService := books, topicStore;
      topics, showSuccess := [], false;
    }

    /** `ngOnInit`: the topic service emits the stored topics at once, and they are offered. */
    method NgOnInit()
      modifies this
      ensures topics == topicService.GetTopicsFromStorage() && showSuccess == old(showSuccess)
    {
      OnTopicsLoaded(topicService.GetTopicsFromStorage());
    }

    method OnTopicsLoaded(loaded: seq<Topic>)
      modifies this
      ensures topics == loaded && showSuccess == old(showSuccess)
    {
      topics := loaded;
    }

    /** The topic load error callback offers no topics. */
    method OnTopicsError()
      modifies this
      ensures topics == [] && showSuccess == old(showSuccess)
    {
      topics := [];
    }

    /**
     * `onSubmit`: an invalid form creates nothing; a valid one stores the
     * record with the next free id and the success banner shows.
     */
    method OnSubmit(formValid: bool, title: string, author: string, selected: seq<int>)
      modifies this, bookService
      ensures !formValid ==> bookService.slot == old(bookService.slot) && showSuccess == old(showSuccess)
      ensures formValid ==>
        var stored := old(bookService.GetBooksFromStorage());
        && bookService.slot == Some(stored + [Book(NextId(BookIds(stored)), title, author, SelectTopics(topics, selected))])
        && showSuccess
      ensures topics == old(topics)
    {
      if formValid {
        var book := NewBookRecord(title, author, topics, selected);
        var created := bookService.CreateBook(book);
        OnCreated();
      }
    }

    method OnCreated()
      modifies this
      ensures showSuccess && topics == old(topics)
    {
      showSuccess := true;
    }

    /** The create error callback hides the success banner. */
    method OnCreateError()
      modifies this
      ensures !showSuccess && topics == old(topics)
    {
      showSuccess := false;
    }
  }
}
