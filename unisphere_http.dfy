/**
 * The request and reply shapes the Unisphere REST helpers exchange with the
 * HTTP layer. The network call itself is outside the model: a request is a
 * value the helper produces, and the reply the server and JSON decoder give
 * back is a parameter.
 */
module UnisphereHttp {
  /** Body of a real-time query: the metric paths and the sampling interval in seconds. */
  datatype QueryBody = QueryBody(paths: seq<string>, interval: int)

  datatype Request = Get(path: string) | PostQuery(path: string, body: QueryBody)

  /**
   * What one request yields: the transport failed, the body arrived but did
   * not decode (with whatever the decoder had filled in), or it decoded.
   */
  datatype Reply<T> = TransportError | Undecodable(partial: T) | Body(decoded: T)

  datatype Error = TransportFailed | DecodeFailed | Message(text: string)

  /** The reply's error, if any, as the helpers report it. */
  function ReplyError<T>(reply: Reply<T>): (e: Error)
    requires !reply.Body?
    ensures reply.TransportError? <==> e == TransportFailed
    ensures reply.Undecodable? <==> e == DecodeFailed
  {
    if reply.TransportError? then TransportFailed else DecodeFailed
  }
}
