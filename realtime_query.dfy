/**
 * Registering a real-time metric query on a Unisphere array: the request
 * carries the metric paths and the interval in whole seconds, and the
 * created query's id comes back rendered in decimal, or `""` on any failure.
 */
module UnisphereRealTimeQuery {
  import opened Wrappers
  import opened GoStrconv
  import opened UnisphereHttp

  const RealTimeQueryPath: string := "/api/types/metricRealTimeQuery/instances"

  /** Nanoseconds per second: durations are counted in nanoseconds. */
  const Second: int := 1_000_000_000

  /** `int(d.Seconds())`: whole seconds, truncated toward zero. */
  function IntervalSeconds(ns: int): (s: int)
    ensures ns >= 0 ==> 0 <= s && s * Second <= ns < (s + 1) * Second
    ensures ns < 0 ==> s <= 0 && (s - 1) * Second < ns <= s * Second
  {
    if ns >= 0 then ns / Second else -((-ns) / Second)
  }

  /** The JSON body: the paths as given, the interval in seconds. */
  function RequestBody(paths: seq<string>, interval: int): (b: QueryBody)
    ensures b.paths == paths && b.interval == IntervalSeconds(interval)
  {
    QueryBody(paths, IntervalSeconds(interval))
  }

  /** The request made, the id returned and the error returned. */
  datatype Posted = Posted(request: Request, id: string, err: Option<Error>)

  /**
   * One call. The body always marshals, so the request is always sent; the
   * reply decodes to the created query's id.
   */
  function PostMetricRealTimeQuery(paths: seq<string>, interval: int, reply: Reply<int>): (r: Posted)
    ensures r.request == PostQuery(RealTimeQueryPath, RequestBody(paths, interval))
    ensures r.err.None? <==> reply.Body?
    ensures r.err.Some? ==> r.id == "" && r.err.value == ReplyError(reply)
    ensures reply.Body? ==> r.id != "" && Atoi(r.id) == Some(reply.decoded)
  {
    var request := PostQuery(RealTimeQueryPath, RequestBody(paths, interval));
    match reply
    case Body(id) => AtoiItoa(id); Posted(request, Itoa(id), None)
    case _ => Posted(request, "", Some(ReplyError(reply)))
  }
}
