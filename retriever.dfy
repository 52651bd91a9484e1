/**
 * The retriever: sends a request, classifies the response's status, maps its
 * content type to a resource model and, when unknown resource types are not
 * allowed, rejects the generic model, checking a first response before the
 * main one.
 */
module Retriever {
  import opened Wrappers
  import opened Http
  import opened MediaTypes

  const DefaultAllowedContentTypes: seq<string> := []
  const DefaultAllowUnknownResourceTypes: bool := true

  /** The resource models a response can be turned into; WebResource is the generic one. */
  datatype ModelClass = WebPage | JsonDocument | WebResource

  /**
   * What a retrieval ends in: a status exception carrying the status code, an
   * invalid-content-type exception carrying the parsed type, the media-type
   * parser's exception, a failed send (no response at all), or a resource of
   * some model built on the response body.
   */
  datatype Outcome =
    | StatusError(code: int)
    | InvalidContentType(contentType: MediaType)
    | ParseError
    | NoResponse
    | Resource(kind: ModelClass, body: string)

  /** The result of the content-type pre-verification. */
  datatype PreCheck =
    | Ignored                   // the response was not 2xx
    | Passed                    // the response was 2xx and its content type is accepted
    | Aborted(failure: Outcome) // the exception that ends the retrieval

  /** The retriever's configuration, as its fields hold it. */
  datatype Settings = Settings(allowedContentTypes: seq<string>, allowUnknownResourceTypes: bool)

  predicate IsInformationalResponse(status: int) {
    status < 200
  }

  /** A redirect status is never informational. */
  predicate IsRedirectResponse(status: int)
    ensures IsRedirectResponse(status) ==> !IsInformationalResponse(status)
  {
    300 <= status < 400
  }

  /** A bad status is neither informational nor a redirect. */
  predicate IsBadResponse(status: int)
    ensures IsBadResponse(status) ==> !IsInformationalResponse(status) && !IsRedirectResponse(status)
  {
    status >= 400
  }

  /** A success status is exactly one that none of the three throwing checks of the main response catches. */
  predicate IsSuccessResponse(status: int)
    ensures IsSuccessResponse(status) <==>
      !IsBadResponse(status) && !IsInformationalResponse(status) && !IsRedirectResponse(status)
  {
    200 <= status < 300
  }

  /** The content-type header string handed to the parser: the empty string when the header is absent. */
  function ContentTypeHeader(response: Response): (header: string)
    ensures response.contentType.None? ==> header == ""
    ensures response.contentType.Some? ==> header == response.contentType.value
  {
    match response.contentType
    case None => ""
    case Some(header) => header
  }

  /** The model class for a parsed content type: web page first, then JSON document, else generic. */
  function ModelClassFor(lib: MediaTypeLibrary, contentType: MediaType): (kind: ModelClass)
    ensures kind == WebPage <==> lib.webPageModels(contentType)
    ensures kind == JsonDocument <==> !lib.webPageModels(contentType) && lib.jsonDocumentModels(contentType)
    ensures kind == WebResource <==> !lib.webPageModels(contentType) && !lib.jsonDocumentModels(contentType)
  {
    if lib.webPageModels(contentType) then WebPage
    else if lib.jsonDocumentModels(contentType) then JsonDocument
    else WebResource
  }

  /**
   * Parses the response's content type, picks its model class and rejects the
   * generic class when unknown resource types are not allowed; on acceptance,
   * the resource that the retriever builds from the response.
   */
  function VerifyContentType(lib: MediaTypeLibrary, allowUnknownResourceTypes: bool, response: Response): (outcome: Outcome)
    ensures outcome.Resource? || outcome.InvalidContentType? || outcome.ParseError?
    ensures outcome.ParseError? <==> lib.parse(ContentTypeHeader(response)).None?
    ensures outcome.InvalidContentType? <==>
      && lib.parse(ContentTypeHeader(response)).Some?
      && ModelClassFor(lib, lib.parse(ContentTypeHeader(response)).value) == WebResource
      && !allowUnknownResourceTypes
    ensures outcome.InvalidContentType? ==> Some(outcome.contentType) == lib.parse(ContentTypeHeader(response))
    ensures outcome.Resource? ==>
      && Some(outcome.kind) == (match lib.parse(ContentTypeHeader(response))
                                  case None => None
                                  case Some(t) => Some(ModelClassFor(lib, t)))
      && outcome.body == response.body
  {
    match lib.parse(ContentTypeHeader(response))
    case None => ParseError
    case Some(contentType) =>
      var kind := ModelClassFor(lib, contentType);
      if kind == WebResource && !allowUnknownResourceTypes then InvalidContentType(contentType)
      else Resource(kind, response.body)
  }

  /** Pre-verification of one response: a non-2xx response is ignored, a 2xx one must pass content-type verification. */
  function PreVerification(lib: MediaTypeLibrary, allowUnknownResourceTypes: bool, response: Response): (check: PreCheck)
    ensures check == Ignored <==> !IsSuccessResponse(response.status)
    ensures check == Passed <==>
      IsSuccessResponse(response.status) && VerifyContentType(lib, allowUnknownResourceTypes, response).Resource?
    ensures check.Aborted? ==>
      && check.failure == VerifyContentType(lib, allowUnknownResourceTypes, response)
      && !check.failure.Resource?
  {
    if !IsSuccessResponse(response.status) then Ignored
    else
      match VerifyContentType(lib, allowUnknownResourceTypes, response)
      case Resource(_, _) => Passed
      case failure => Aborted(failure)
  }

  /** What the main response turns into: a status exception unless it is 2xx, else the verified resource. */
  function MainOutcome(lib: MediaTypeLibrary, allowUnknownResourceTypes: bool, response: Response): (outcome: Outcome)
    ensures !IsSuccessResponse(response.status) ==> outcome == StatusError(response.status)
    ensures IsSuccessResponse(response.status) ==> outcome == VerifyContentType(lib, allowUnknownResourceTypes, response)
  {
    if IsBadResponse(response.status) then StatusError(response.status)
    else if IsInformationalResponse(response.status) then StatusError(response.status)
    else if IsRedirectResponse(response.status) then StatusError(response.status)
    else VerifyContentType(lib, allowUnknownResourceTypes, response)
  }

  /** The main request sent after `sent` earlier sends, against what is left of the script. */
  function MainRequest(lib: MediaTypeLibrary, allowUnknownResourceTypes: bool, responses: seq<Response>, sent: nat): (Outcome, nat) {
    if responses == [] then (NoResponse, sent)
    else (MainOutcome(lib, allowUnknownResourceTypes, responses[0]), sent + 1)
  }

  /**
   * A whole retrieval against the scripted responses: its outcome and the
   * number of responses it consumed. At most two are consumed, never more
   * than the script holds; a retrieval that fails for want of a response has
   * consumed the whole script, and any other outcome follows at least one send.
   */
  function Retrieval(lib: MediaTypeLibrary, settings: Settings, responses: seq<Response>): (result: (Outcome, nat))
    ensures result.1 <= |responses| && result.1 <= 2
    ensures result.0.NoResponse? ==> result.1 == |responses|
    ensures !result.0.NoResponse? ==> result.1 >= 1
  {
    var allowUnknown := settings.allowUnknownResourceTypes;
    if !allowUnknown then
      if responses == [] then (NoResponse, 0)
      else
        match PreVerification(lib, allowUnknown, responses[0])
        case Aborted(failure) => (failure, 1)
        case _ => MainRequest(lib, allowUnknown, responses[1..], 1)
    else
      MainRequest(lib, allowUnknown, responses, 0)
  }

  class Retriever {
    var httpClient: HttpClient
    var allowedContentTypes: seq<string>
    var allowUnknownResourceTypes: bool

    function Configuration(): Settings
      reads this
    {
      Settings(allowedContentTypes, allowUnknownResourceTypes)
    }

    constructor (
      httpClient: HttpClient,
      allowedContentTypes: seq<string> := DefaultAllowedContentTypes,
      allowUnknownResourceTypes: bool := DefaultAllowUnknownResourceTypes)
      ensures this.httpClient == httpClient
      ensures this.allowedContentTypes == allowedContentTypes
      ensures this.allowUnknownResourceTypes == allowUnknownResourceTypes
    {
      this.httpClient := httpClient;
      this.allowedContentTypes := allowedContentTypes;
      this.allowUnknownResourceTypes := allowUnknownResourceTypes;
    }

    method SetHttpClient(httpClient: HttpClient)
      modifies this
      ensures this.httpClient == httpClient
      ensures allowedContentTypes == old(allowedContentTypes)
      ensures allowUnknownResourceTypes == old(allowUnknownResourceTypes)
    {
      this.httpClient := httpClient;
    }

    method SetAllowedContentTypes(allowedContentTypes: seq<string> := [])
      modifies this
      ensures this.allowedContentTypes == allowedContentTypes
      ensures httpClient == old(httpClient)
      ensures allowUnknownResourceTypes == old(allowUnknownResourceTypes)
    {
      this.allowedContentTypes := allowedContentTypes;
    }

    method SetAllowUnknownResourceTypes(allowUnknownResourceTypes: bool := true)
      modifies this
      ensures this.allowUnknownResourceTypes == allowUnknownResourceTypes
      ensures httpClient == old(httpClient)
      ensures allowedContentTypes == old(allowedContentTypes)
    {
      this.allowUnknownResourceTypes := allowUnknownResourceTypes;
    }

    /**
     * Sends the pre-verification request and checks the content type of its
     * response; a failed send aborts with NoResponse.
     */
    method PreVerifyContentType(lib: MediaTypeLibrary) returns (check: PreCheck)
      modifies httpClient
      ensures old(httpClient.pending) == [] ==> check == Aborted(NoResponse) && httpClient.pending == []
      ensures old(httpClient.pending) != [] ==>
        && check == PreVerification(lib, allowUnknownResourceTypes, old(httpClient.pending)[0])
        && httpClient.pending == old(httpClient.pending)[1..]
    {
      var response := httpClient.Send();
      if response.None? {
        return Aborted(NoResponse);
      }
      if !IsSuccessResponse(response.value.status) {
        return Ignored;
      }
      var verified := VerifyContentType(lib, allowUnknownResourceTypes, response.value);
      if !verified.Resource? {
        return Aborted(verified);
      }
      check := Passed;
    }

    /**
     * Retrieves a resource: when unknown resource types are not allowed, first
     * pre-verifies the content type; then sends the main request, throws for
     * any non-2xx status and builds the resource of the verified model class.
     * The outcome and the responses consumed are those of Retrieval.
     */
    method Retrieve(lib: MediaTypeLibrary) returns (outcome: Outcome)
      modifies httpClient
      // the next two follow from the frame and are stated for the reader
      ensures httpClient == old(httpClient)
      ensures Configuration() == old(Configuration())
      ensures var (expected, used) := Retrieval(lib, Configuration(), old(httpClient.pending));
        && outcome == expected
        && httpClient.pending == old(httpClient.pending)[used..]
    {
      if !allowUnknownResourceTypes {
        var check := PreVerifyContentType(lib);
        if check.Aborted? {
          return check.failure;
        }
      }
      var sent := httpClient.Send();
      if sent.None? {
        return NoResponse;
      }
      var response := sent.value;
      if IsBadResponse(response.status) {
        return StatusError(response.status);
      }
      if IsInformationalResponse(response.status) {
        return StatusError(response.status);
      }
      if IsRedirectResponse(response.status) {
        // redirects are expected to be followed by the client
        return StatusError(response.status);
      }
      outcome := VerifyContentType(lib, allowUnknownResourceTypes, response);
    }
  }
}
