/**
 * What the retriever's decision procedure guarantees: how status codes are
 * classified, which response decides the outcome, when the content type is
 * rejected, how many responses a retrieval consumes, and that the list of
 * allowed content types plays no part.
 */
module RetrieverProperties {
  import opened Wrappers
  import opened Http
  import opened MediaTypes
  import opened Retriever

  /** Every status code is exactly one of informational, success, redirect or bad. */
  lemma StatusClassesPartition(status: int)
    ensures IsInformationalResponse(status) || IsSuccessResponse(status) || IsRedirectResponse(status) || IsBadResponse(status)
    ensures !(IsInformationalResponse(status) && IsSuccessResponse(status))
    ensures !(IsInformationalResponse(status) && IsRedirectResponse(status))
    ensures !(IsInformationalResponse(status) && IsBadResponse(status))
    ensures !(IsSuccessResponse(status) && IsRedirectResponse(status))
    ensures !(IsSuccessResponse(status) && IsBadResponse(status))
    ensures !(IsRedirectResponse(status) && IsBadResponse(status))
  {
  }

  /** Whether pre-verification of this response throws, ending the retrieval before the main request. */
  predicate PreVerificationAborts(lib: MediaTypeLibrary, response: Response) {
    PreVerification(lib, false, response).Aborted?
  }

  /**
   * Given enough responses, one is consumed when unknown types are allowed,
   * one when pre-verification throws, and two otherwise.
   */
  lemma ResponseCount(lib: MediaTypeLibrary, settings: Settings, responses: seq<Response>)
    requires |responses| >= 2
    ensures Retrieval(lib, settings, responses).1 ==
      if settings.allowUnknownResourceTypes || PreVerificationAborts(lib, responses[0]) then 1 else 2
  {
  }

  /**
   * Whatever the outcome (except a failed send), it is decided by the last
   * response consumed: a status exception with that response's code exactly
   * when it is not 2xx, and otherwise the verdict of content-type
   * verification on it. So a 404 never ends in an invalid content type, and a
   * resource is only ever built from a 2xx response.
   */
  lemma OutcomeDecidedByLastResponse(lib: MediaTypeLibrary, settings: Settings, responses: seq<Response>)
    requires !Retrieval(lib, settings, responses).0.NoResponse?
    ensures var (outcome, used) := Retrieval(lib, settings, responses);
      && 1 <= used <= |responses|
      && (outcome.StatusError? <==> !IsSuccessResponse(responses[used - 1].status))
      && (outcome.StatusError? ==> outcome.code == responses[used - 1].status)
      && (!outcome.StatusError? ==>
            outcome == VerifyContentType(lib, settings.allowUnknownResourceTypes, responses[used - 1]))
  {
  }

  /** A resource is built only from a 2xx response, carries its body, and is never generic when unknown types are forbidden. */
  lemma ResourceOnlyFromSuccess(lib: MediaTypeLibrary, settings: Settings, responses: seq<Response>)
    requires Retrieval(lib, settings, responses).0.Resource?
    ensures var (outcome, used) := Retrieval(lib, settings, responses);
      && 1 <= used <= |responses|
      && IsSuccessResponse(responses[used - 1].status)
      && outcome.body == responses[used - 1].body
      && (!settings.allowUnknownResourceTypes ==> outcome.kind != WebResource)
  {
    OutcomeDecidedByLastResponse(lib, settings, responses);
  }

  /**
   * A retrieval ends in an invalid content type exactly when unknown types
   * are forbidden and the deciding 2xx response's type parses and maps to the
   * generic model; the exception carries that parsed type.
   */
  lemma InvalidContentTypeIff(lib: MediaTypeLibrary, settings: Settings, responses: seq<Response>)
    requires !Retrieval(lib, settings, responses).0.NoResponse?
    ensures var (outcome, used) := Retrieval(lib, settings, responses);
      var last := responses[used - 1];
      var parsed := lib.parse(ContentTypeHeader(last));
      && (outcome.InvalidContentType? <==>
            && !settings.allowUnknownResourceTypes
            && IsSuccessResponse(last.status)
            && parsed.Some?
            && ModelClassFor(lib, parsed.value) == WebResource)
      && (outcome.InvalidContentType? ==> parsed == Some(outcome.contentType))
  {
    OutcomeDecidedByLastResponse(lib, settings, responses);
  }

  /** With unknown types allowed, one 2xx response with a parseable type always yields a resource of its mapped model carrying its body. */
  lemma UnknownAllowedYieldsResource(lib: MediaTypeLibrary, settings: Settings, response: Response, rest: seq<Response>)
    requires settings.allowUnknownResourceTypes
    requires IsSuccessResponse(response.status)
    requires lib.parse(ContentTypeHeader(response)).Some?
    ensures Retrieval(lib, settings, [response] + rest) ==
      (Resource(ModelClassFor(lib, lib.parse(ContentTypeHeader(response)).value), response.body), 1)
  {
  }

  /** A non-2xx pre-verification response is ignored: the main request is still sent and alone decides the outcome. */
  lemma NonSuccessPreVerificationIgnored(lib: MediaTypeLibrary, settings: Settings, pre: Response, rest: seq<Response>)
    requires !settings.allowUnknownResourceTypes
    requires !IsSuccessResponse(pre.status)
    ensures Retrieval(lib, settings, [pre] + rest) ==
      if rest == [] then (NoResponse, 1) else (MainOutcome(lib, false, rest[0]), 2)
  {
    assert ([pre] + rest)[1..] == rest;
  }

  /** A 2xx pre-verification response whose type maps to the generic model aborts the retrieval before the main request. */
  lemma GenericPreVerificationAborts(lib: MediaTypeLibrary, settings: Settings, pre: Response, rest: seq<Response>)
    requires !settings.allowUnknownResourceTypes
    requires IsSuccessResponse(pre.status)
    requires lib.parse(ContentTypeHeader(pre)).Some?
    requires ModelClassFor(lib, lib.parse(ContentTypeHeader(pre)).value) == WebResource
    ensures Retrieval(lib, settings, [pre] + rest) == (InvalidContentType(lib.parse(ContentTypeHeader(pre)).value), 1)
  {
  }

  /** The allowed content types are stored but never read: only the unknown-types flag matters. */
  lemma AllowedContentTypesIgnored(lib: MediaTypeLibrary, a: Settings, b: Settings, responses: seq<Response>)
    requires a.allowUnknownResourceTypes == b.allowUnknownResourceTypes
    ensures Retrieval(lib, a, responses) == Retrieval(lib, b, responses)
  {
  }

  /** A response without a content-type header is parsed as the empty string, so a rejected one reports the empty type. */
  lemma MissingHeaderReportsEmptyType(lib: MediaTypeLibrary, settings: Settings, body: string, rest: seq<Response>)
    requires AgreesWithTests(lib)
    requires !settings.allowUnknownResourceTypes
    ensures ContentTypeHeader(Response(200, None, body)) == ""
    ensures Retrieval(lib, settings, [Response(200, None, body)] + rest) == (InvalidContentType(MediaType("")), 1)
  {
  }

  /** The status-exception cases of the retriever's tests: every fixture is consumed and the code is the status. */
  lemma StatusExceptionScenarios(lib: MediaTypeLibrary)
    ensures Retrieval(lib, Settings([], true), [Response(404, None, "")]) == (StatusError(404), 1)
    ensures Retrieval(lib, Settings([], false), [Response(404, None, ""), Response(404, None, "")]) == (StatusError(404), 2)
    ensures Retrieval(lib, Settings([], true), [Response(500, None, "")]) == (StatusError(500), 1)
    ensures Retrieval(lib, Settings([], true), [Response(100, None, "")]) == (StatusError(100), 1)
    ensures Retrieval(lib, Settings([], true), [Response(301, None, "")]) == (StatusError(301), 1)
  {
  }

  /** The invalid-content-type cases of the retriever's tests. */
  lemma InvalidContentTypeScenarios(lib: MediaTypeLibrary)
    requires AgreesWithTests(lib)
    ensures Retrieval(lib, Settings([], false), [Response(200, None, "")]) == (InvalidContentType(MediaType("")), 1)
    ensures Retrieval(lib, Settings(["text/html"], false), [Response(200, Some("text/plain"), "")])
      == (InvalidContentType(MediaType("text/plain")), 1)
    ensures Retrieval(lib, Settings(["text/html"], false), [Response(500, None, ""), Response(200, Some("text/plain"), "")])
      == (InvalidContentType(MediaType("text/plain")), 2)
    ensures Retrieval(lib, Settings([], false), [Response(404, None, ""), Response(200, None, "")])
      == (InvalidContentType(MediaType("")), 2)
  {
  }

  /** The successful cases of the retriever's tests. */
  lemma SuccessScenarios(lib: MediaTypeLibrary)
    requires AgreesWithTests(lib)
    ensures Retrieval(lib, Settings([], true), [Response(200, Some("text/plain"), "Foo")]) == (Resource(WebResource, "Foo"), 1)
    ensures Retrieval(lib, Settings([], true), [Response(200, Some("text/html"), "<!doctype><html>")])
      == (Resource(WebPage, "<!doctype><html>"), 1)
    ensures Retrieval(lib, Settings([], true), [Response(200, Some("application/json"), "[]")]) == (Resource(JsonDocument, "[]"), 1)
    ensures Retrieval(lib, Settings(["text/html"], false),
                      [Response(200, Some("text/html"), ""), Response(200, Some("text/html"), "<!doctype><html>")])
      == (Resource(WebPage, "<!doctype><html>"), 2)
  {
  }
}
