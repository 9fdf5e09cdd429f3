/** The topics REST service (`TopicsService`): the list request and the active-count URL. */
module TopicsApi {
  import opened ListQuery
  import opened Strings

  const TopicsBase: string := "api/topics"
  const StatsTopic: string := "api/stats/total-topics"

  /** `getTopics(query)`: GET api/topics with the list parameters. */
  method GetTopics(q: PaginationQuery) returns (req: GetRequest)
    ensures req.url == TopicsBase
    ensures IsListParams(q, req.params)
  {
    var params := BuildListParams(q);
    req := GetRequest(TopicsBase, params);
  }

  /** The URL of `getActiveTopicsCount`: the topic statistics path with the query string `activeOnly=true`. */
  function ActiveTopicsCountUrl(): (url: string)
    ensures StartsWith(url, StatsTopic)
    ensures url[|StatsTopic|..] == "?activeOnly=true"
  {
    StatsTopic + "?activeOnly=true"
  }
}
