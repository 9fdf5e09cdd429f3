/**
 * `TopicService` of src/app/services: a topic repository kept in the
 * `library_topics` slot of the browser's localStorage.
 */
module TopicStore {
  import opened Wrappers
  import opened Seqs

  datatype Topic = Topic(id: int, genre: string, description: string)

  function TopicId(t: Topic): int { t.id }

  function TopicIds(s: seq<Topic>): (ids: seq<int>)
    ensures |ids| == |s| && forall i :: 0 <= i < |s| ==> ids[i] == s[i].id
  {
    seq(|s|, i requires 0 <= i < |s| => s[i].id)
  }

  /** The topics written when the slot is absent. */
  const InitialTopics: seq<Topic> := [
    Topic(1, "Fiction", "Fictional literature"),
    Topic(2, "Non-Fiction", "Non-fictional literature"),
    Topic(3, "Science", "Scientific literature")
  ]

  class TopicService {
    /** The localStorage slot: absent, or the stored (serialised) list. */
    var slot: Option<seq<Topic>>

    /** Seeds the slot only when it is absent; an existing slot is left as it is. */
    constructor (existing: Option<seq<Topic>>)
      ensures existing.None? ==> slot == Some(InitialTopics)
      ensures existing.Some? ==> slot == existing
    {
      if existing.None? {
        slot := Some(InitialTopics);
      } else {
        slot := existing;
      }
    }

    /** `getTopicsFromStorage` (and what `getTopics` emits): an absent slot reads as the empty list. */
    function GetTopicsFromStorage(): (topics: seq<Topic>)
      reads this
      ensures slot.None? ==> topics == []
      ensures slot.Some? ==> topics == slot.value
    {
      slot.GetOr([])
    }

    /** `getTopic(id)`: the first stored topic with that id, if any. */
    function GetTopic(id: int): (r: Option<Topic>)
      reads this
      ensures r.None? <==> forall i :: 0 <= i < |GetTopicsFromStorage()| ==> GetTopicsFromStorage()[i].id != id
      ensures r.Some? ==> r.value.id == id
      ensures r.Some? ==> exists i :: (0 <= i < |GetTopicsFromStorage()| && GetTopicsFromStorage()[i] == r.value
        && forall j :: 0 <= j < i ==> GetTopicsFromStorage()[j].id != id)
    {
      var s := GetTopicsFromStorage();
      var i := FirstIndexWithKey(s, TopicId, id);
      if i < 0 then None else Some(s[i])
    }

    /**
     * `createTopic(topic)`: the topic gets id max + 1 (1 for an empty store),
     * is appended, and is returned with that id.
     */
    method CreateTopic(topic: Topic) returns (created: Topic)
      modifies this
      ensures created == topic.(id := NextId(TopicIds(old(GetTopicsFromStorage()))))
      ensures forall t :: t in old(GetTopicsFromStorage()) ==> t.id < created.id
      ensures slot == Some(old(GetTopicsFromStorage()) + [created])
    {
      var topics := GetTopicsFromStorage();
      created := topic.(id := NextId(TopicIds(topics)));
      topics := topics + [created];
      slot := Some(topics);
    }

    /** `deleteTopic(id)`: stores the list without the topics having that id. */
    method DeleteTopic(id: int)
      modifies this
      ensures slot == Some(RemoveKey(old(GetTopicsFromStorage()), TopicId, id))
    {
      slot := Some(RemoveKey(GetTopicsFromStorage(), TopicId, id));
    }
  }
}
