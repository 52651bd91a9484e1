/**
 * The HTTP transport the retriever sends its requests through, reduced to
 * what the retriever observes of it: each send yields the next response of
 * a fixed script, or fails when the script is exhausted.
 */
module Http {
  import opened Wrappers

  /**
   * A response as the retriever reads it: its status code, the first value of
   * its content-type header (None when the header is absent) and its body.
   */
  datatype Response = Response(status: int, contentType: Option<string>, body: string)

  /**
   * The client: the responses it will yield, in order, for successive sends.
   * A 4xx or 5xx response is yielded like any other (the retriever catches the
   * client's bad-response exception and keeps the response it carries).
   */
  class HttpClient {
    var pending: seq<Response>

    constructor (responses: seq<Response>)
      ensures pending == responses
    {
      pending := responses;
    }

    /** Sends one request: yields the next scripted response, or None when there is none left. */
    method Send() returns (response: Option<Response>)
      modifies this
      ensures old(pending) == [] ==> response == None && pending == []
      ensures old(pending) != [] ==> response == Some(old(pending)[0]) && pending == old(pending)[1..]
    {
      if pending == [] {
        response := None;
      } else {
        response := Some(pending[0]);
        pending := pending[1..];
      }
    }
  }
}
