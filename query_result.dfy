/**
 * Fetching the samples of a registered real-time query. An empty id is
 * refused before any request is made; otherwise the id is put into the
 * filter of the request path.
 */
module UnisphereQueryResult {
  import opened Wrappers
  import opened GoStrings
  import opened UnisphereHttp
  import opened MetricPath

  const QueryResultPath: string := "/api/types/metricQueryResult/instances?compact=true"
  const QueryIdFilter: string := "&filter=queryId%20eq%20"

  function QueryResultUrl(queryId: string): string {
    QueryResultPath + QueryIdFilter + queryId
  }

  /** The request made (if any) and the decoded entries or the error. */
  datatype Fetched = Fetched(request: Option<Request>, result: Result<seq<ResultEntry>, Error>)

  function GetMetricQueryResult(queryId: string, reply: Reply<seq<ResultEntry>>): (r: Fetched)
    ensures queryId == "" ==> r == Fetched(None, Failure(Message("queryId is required")))
    ensures queryId != "" ==> r.request == Some(Get(QueryResultUrl(queryId)))
    ensures queryId != "" ==> (r.result.Success? <==> reply.Body?)
    ensures queryId != "" && reply.Body? ==> r.result.value == reply.decoded
    ensures queryId != "" && !reply.Body? ==> r.result.error == ReplyError(reply)
  {
    if queryId == "" then Fetched(None, Failure(Message("queryId is required")))
    else
      var request := Some(Get(QueryResultUrl(queryId)));
      match reply
      case Body(data) => Fetched(request, Success(data))
      case _ => Fetched(request, Failure(ReplyError(reply)))
  }

  /**
   * The request path names the query: it starts with the fixed filter
   * prefix, and two ids give the same path only if they are equal.
   */
  lemma QueryResultUrlNamesQuery(a: string, b: string)
    ensures HasPrefix(QueryResultUrl(a), QueryResultPath + QueryIdFilter)
    ensures QueryResultUrl(a) == QueryResultUrl(b) ==> a == b
  {
    var prefix := QueryResultPath + QueryIdFilter;
    assert QueryResultUrl(a)[..|prefix|] == prefix;
    if QueryResultUrl(a) == QueryResultUrl(b) {
      assert a == QueryResultUrl(a)[|prefix|..];
      assert b == QueryResultUrl(b)[|prefix|..];
    }
  }
}
