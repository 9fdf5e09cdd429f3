/** `EditBookComponent`: loads a book into the edit form and submits the update. */
module EditBooks {
  import opened Wrappers

  /**
   * One element of a book's `topics` as the server sends it: an object with
   * an `id` ('' stands for a missing or empty id), a topic id string, `null`,
   * or any other value (a number, say).
   */
  datatype TopicEntry = TopicObject(id: string) | TopicIdString(value: string) | NullEntry | OtherEntry

  /** A book as loaded for editing; `topics` is None when missing or not an array. */
  datatype LoadedBook = LoadedBook(title: string, author: string, topics: Option<seq<TopicEntry>>)

  /** A topic in the selectable list, with both id spellings ('' when missing). */
  datatype TopicRecord = TopicRecord(id: string, mongoId: string, genre: string)

  /** `topic.id` read from an element that is not null: an object's id, undefined for anything else. */
  function IdOf(t: TopicEntry): TopicEntry
    requires !t.NullEntry?
  {
    match t
    case TopicObject(id) => TopicIdString(id)
    case _ => OtherEntry
  }

  /** Some element is `null`. */
  predicate HasNull(ts: seq<TopicEntry>) {
    exists i | 0 <= i < |ts| :: ts[i].NullEntry?
  }

  /** The first element is an object with a truthy id. */
  predicate StartsWithObject(ts: seq<TopicEntry>) {
    |ts| > 0 && ts[0].TopicObject? && ts[0].id != ""
  }

  /** The first element is a string. */
  predicate StartsWithString(ts: seq<TopicEntry>) {
    |ts| > 0 && ts[0].TopicIdString?
  }

  /**
   * Reading `.id` throws a TypeError: on a `null` first element (whose
   * `typeof` is 'object'), or, once the first element is an object with an
   * id, on the `null` elements the `map` reaches.
   */
  predicate ExtractionThrows(topics: Option<seq<TopicEntry>>) {
    topics.Some? && |topics.value| > 0
    && (topics.value[0].NullEntry? || (StartsWithObject(topics.value) && HasNull(topics.value)))
  }

  /**
   * The topic ids patched into the form, or None when the extraction throws:
   * every element's id, in order, when the first element is an object with
   * an id; the list itself when the first element is a string; otherwise
   * (also for a missing or empty list) [].
   */
  function ExtractTopicIds(topics: Option<seq<TopicEntry>>): (ids: Option<seq<TopicEntry>>)
    ensures ids.None? <==> ExtractionThrows(topics)
    ensures topics.None? ==> ids == Some([])
    ensures ids.Some? && topics.Some? && StartsWithObject(topics.value) ==>
      |ids.value| == |topics.value|
      && forall i :: 0 <= i < |ids.value| ==> !topics.value[i].NullEntry? && ids.value[i] == IdOf(topics.value[i])
    ensures topics.Some? && StartsWithString(topics.value) ==> ids == topics
    ensures topics.Some? && !StartsWithObject(topics.value) && !StartsWithString(topics.value) ==>
      ids == if ExtractionThrows(topics) then None else Some([])
  {
    if topics.None? then Some([])
    else if |topics.value| > 0 && topics.value[0].NullEntry? then None
    else if StartsWithObject(topics.value) then
      if HasNull(topics.value) then None
      else Some(seq(|topics.value|, i requires 0 <= i < |topics.value| => IdOf(topics.value[i])))
    else if StartsWithString(topics.value) then topics
    else Some([])
  }

  /**
   * Whether the form gets an empty list depends only on the first element:
   * after an object with an id or a string, the list is never emptied; after
   * anything else it always is, unless that element is `null`.
   */
  lemma FirstElementDecides(first: TopicEntry, a: seq<TopicEntry>, b: seq<TopicEntry>)
    ensures (ExtractTopicIds(Some([first] + a)) == Some([])) == (ExtractTopicIds(Some([first] + b)) == Some([]))
  {
    var ra, rb := ExtractTopicIds(Some([first] + a)), ExtractTopicIds(Some([first] + b));
    if StartsWithObject([first] + a) {
      assert ra.None? || |ra.value| > 0;
      assert rb.None? || |rb.value| > 0;
    } else if StartsWithString([first] + a) {
      assert ra == Some([first] + a) && rb == Some([first] + b);
    }
  }

  /** Ids read from objects are never objects or nulls themselves: the form only ever holds id strings or undefined. */
  lemma ObjectIdsAreFlat(topics: seq<TopicEntry>, i: int)
    requires StartsWithObject(topics) && ExtractTopicIds(Some(topics)).Some?
    requires 0 <= i < |topics|
    ensures ExtractTopicIds(Some(topics)).value[i].TopicIdString? || ExtractTopicIds(Some(topics)).value[i] == OtherEntry
  {
  }

  /** `getTopicId(topic)`: `id || _id || ''`. */
  function GetTopicId(topic: TopicRecord): (r: string)
    ensures topic.id != "" ==> r == topic.id
    ensures topic.id == "" ==> r == topic.mongoId
    ensures r == "" <==> topic.id == "" && topic.mongoId == ""
  {
    if topic.id != "" then topic.id else if topic.mongoId != "" then topic.mongoId else ""
  }

  /** The update call: the route id and the form's values. */
  datatype UpdateRequest = UpdateRequest(id: string, title: string, author: string, topics: seq<TopicEntry>)

  class EditBookComponent {
    var loading: bool
    var error: Option<string>
    var topics: seq<TopicRecord>
    /** The edit form's controls. */
    var title: string
    var author: string
    var formTopics: seq<TopicEntry>

    constructor ()
      ensures !loading && error.None? && topics == [] && title == "" && author == "" && formTopics == []
    {
      loading, error, topics := false, None, [];
      title, author, formTopics := "", "", [];
    }

    /** `ngOnInit` up to the calls: with a route id, loading starts and that book is requested (topics are always requested). */
    method NgOnInit(routeId: Option<string>) returns (bookRequest: Option<string>)
      modifies this
      ensures bookRequest == (if routeId.Some? && routeId.value != "" then routeId else None)
      ensures loading == (bookRequest.Some? || old(loading))
      ensures error == old(error) && topics == old(topics)
      ensures title == old(title) && author == old(author) && formTopics == old(formTopics)
    {
      bookRequest := None;
      if routeId.Some? && routeId.value != "" {
        loading := true;
        bookRequest := routeId;
      }
    }

    /**
     * The book arrived: the form takes its title, author and extracted topic
     * ids, and loading ends; when the extraction throws, nothing after it
     * runs, so the form is not patched and loading stays on.
     */
    method OnBookLoaded(book: LoadedBook)
      modifies this
      ensures ExtractTopicIds(book.topics).Some? ==>
        && title == book.title && author == book.author && formTopics == ExtractTopicIds(book.topics).value
        && !loading
      ensures ExtractTopicIds(book.topics).None? ==>
        title == old(title) && author == old(author) && formTopics == old(formTopics) && loading == old(loading)
      ensures error == old(error) && topics == old(topics)
    {
      var topicIds: seq<TopicEntry> := [];
      if book.topics.Some? {
        var ts := book.topics.value;
        if |ts| > 0 && ts[0].NullEntry? {
          return;
        }
        if StartsWithObject(ts) {
          if HasNull(ts) {
            return;
          }
          topicIds := seq(|ts|, i requires 0 <= i < |ts| => IdOf(ts[i]));
        } else if StartsWithString(ts) {
          topicIds := ts;
        }
      }
      title, author, formTopics := book.title, book.author, topicIds;
      loading := false;
    }

    /**
     * Loading the book failed. The books service turns every failure into a
     * plain `Error`, which has no `error.message`, so 'Failed to load book'
     * is always shown; loading ends.
     */
    method OnBookLoadError()
      modifies this
      ensures error == Some("Failed to load book") && !loading
      ensures topics == old(topics) && title == old(title) && author == old(author) && formTopics == old(formTopics)
    {
      error := Some("Failed to load book");
      loading := false;
    }

    method OnTopicsLoaded(loaded: seq<TopicRecord>)
      modifies this
      ensures topics == loaded && loading == old(loading) && error == old(error)
      ensures title == old(title) && author == old(author) && formTopics == old(formTopics)
    {
      topics := loaded;
    }

    /** Loading the topics failed: as for the book, always 'Failed to load topics'. */
    method OnTopicsLoadError()
      modifies this
      ensures error == Some("Failed to load topics")
      ensures topics == old(topics) && loading == old(loading)
      ensures title == old(title) && author == old(author) && formTopics == old(formTopics)
    {
      error := Some("Failed to load topics");
    }

    /** `onSubmit`: no update unless the form is valid and the route has an id. */
    method OnSubmit(formValid: bool, routeId: Option<string>) returns (req: Option<UpdateRequest>)
      ensures req.Some? <==> formValid && routeId.Some? && routeId.value != ""
      ensures req.Some? ==> req.value == UpdateRequest(routeId.value, title, author, formTopics)
    {
      req := None;
      if formValid {
        if routeId.Some? && routeId.value != "" {
          req := Some(UpdateRequest(routeId.value, title, author, formTopics));
        }
      }
    }

    /** The update failed: as for the book, always 'Failed to update book'. */
    method OnUpdateError()
      modifies this
      ensures error == Some("Failed to update book")
      ensures topics == old(topics) && loading == old(loading)
      ensures title == old(title) && author == old(author) && formTopics == old(formTopics)
    {
      error := Some("Failed to update book");
    }
  }
}
