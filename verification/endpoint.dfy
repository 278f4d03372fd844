/**
 * The SPARQL endpoint as seen by the deletion tool. Sending the request is
 * not modelled: the endpoint is a function from query text to `Reply`, and
 * `FetchSparqlResults` is what the tool makes of that reply.
 */
module Endpoint {
  import opened Wrappers
  import opened Json

  /**
   * The outcome of one POST: a response with its HTTP status and its body
   * read as JSON (`None` when the body could not be read or is not JSON),
   * or a transport failure before any response.
   */
  datatype Reply = Response(status: int, body: Option<Json>) | TransportError

  /** `StatusCode::is_success`: a 2xx status. */
  predicate IsSuccess(status: int) {
    200 <= status <= 299
  }

  /**
   * `fetch_sparql_results` once the reply is in: `None` is the error that
   * `?` passes to the caller; a non-2xx status is not an error but `Null`.
   */
  function FetchSparqlResults(reply: Reply): (r: Option<Json>)
    ensures r.None? <==> reply.TransportError? || (IsSuccess(reply.status) && reply.body.None?)
    ensures reply.Response? && !IsSuccess(reply.status) ==> r == Some(Null)
    ensures reply.Response? && IsSuccess(reply.status) ==> r == reply.body
  {
    match reply
    case TransportError => None
    case Response(status, body) =>
      if IsSuccess(status) then body else Some(Null)
  }
}
