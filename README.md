# Web-resource retriever: response acceptance

This project models the part of the `webignition/web-resource` library that
decides what a retrieval yields: the `Retriever` class. Beside it, and
modelled on its own, is a separate exception of the library,
`UnparseableContentTypeException`. The retriever never raises it. The
retriever's own parse failure is the media-type parser's exception, which the
model renders as `Outcome.ParseError`. The unparseable-content-type exception
is raised by the web page's character-set parser, which is not part of this
model. Its message, its code and its getter are modelled.

A retriever holds an HTTP client, a list of allowed content types and a flag
saying whether unknown resource types are allowed. `retrieve`:

1. when unknown types are not allowed, sends a pre-verification request; a
   non-2xx answer is ignored, a 2xx answer must pass content-type verification
   or the retrieval ends with that exception;
2. sends the main request and throws a status exception (carrying the status
   code) for any informational, redirect or bad (4xx/5xx) status;
3. parses the content-type header (an absent header is the empty string) and
   maps the parsed type to a model: web page if the web-page model claims it,
   else JSON document if the JSON model claims it, else the generic web
   resource;
4. rejects the generic model with an invalid-content-type exception when
   unknown types are not allowed, and otherwise builds the resource from the
   response body.

The model:

- `Http` (`http.dfy`): a response is its status, its first content-type header
  value and its body; the client is a class holding the responses it will
  yield for successive sends (`Send` pops one, or yields nothing when none is
  left).
- `MediaTypes` (`media_types.dfy`): the media-type parser and the two
  `models` predicates are collaborators the model cannot see. They are passed
  in as a `MediaTypeLibrary` value of three functions. `AgreesWithTests`
  states the facts about them that the retriever's tests rely on.
- `Retriever` (`retriever.dfy`): the status predicates, the model-class
  mapping and content-type verification as functions. `Retrieval` specifies a
  whole retrieval against a script of responses: the outcome, and how many
  responses it consumed. The `Retriever` class has the three fields, the
  constructor, the setters, and the methods `PreVerifyContentType` and
  `Retrieve`. These methods send through the client step by step and are
  proved to match the functions.
- `RetrieverProperties` (`retriever_properties.dfy`): lemmas about
  `Retrieval`, plus the retriever test cases stated as lemmas.
- `UnparseableContentType` (`unparseable_content_type.dfy`): the exception
  value, the `%s` substitution that builds its message, and the round trip
  from the message back to the content-type string.

The code and its documentation disagree in two places.

- The doc comment of `retrieve` (src/Retriever.php:93-94) says the content
  type is checked against the list given to `setAllowedContentTypes`. The code
  stores that list (src/Retriever.php:72-75) and never reads it. The model
  follows the code: `AllowedContentTypesIgnored` proves that the list has no
  effect.
- The same comment (src/Retriever.php:90-91) says any status other than 200
  throws. The code accepts every 2xx status, and so does the model.

## Model

| member | source | states |
|---|---|---|
| `RetrieverProperties.StatusClassesPartition` | src/Retriever.php:227-260 | every integer status is exactly one of informational (<200), success (200-299), redirect (300-399) or bad (>=400) |
| `Retriever.IsInformationalResponse` | src/Retriever.php:227-230 | a status below 200; it shares no status with the other three classes (see `StatusClassesPartition`) |
| `Retriever.IsRedirectResponse` | src/Retriever.php:237-240 | a status from 300 to 399, never an informational one |
| `Retriever.IsBadResponse` | src/Retriever.php:247-250 | a status of 400 or more, never an informational or redirect one |
| `Retriever.IsSuccessResponse` | src/Retriever.php:257-260 | a status is 2xx exactly when none of the bad, informational and redirect checks of the main response catches it |
| `Retriever.ContentTypeHeader` | src/Retriever.php:214-217 | the string handed to the parser is the first header value, or the empty string when the header is absent |
| `Retriever.ModelClassFor` | src/Retriever.php:163-174 | the model is WebPage iff the web-page model claims the type; JsonDocument iff the web-page model does not and the JSON model does; generic WebResource iff neither does |
| `Retriever.VerifyContentType` | src/Retriever.php:143-156 | a parser failure propagates; the result is an invalid-content-type exception carrying the parsed type iff that type maps to the generic model and unknown types are not allowed; otherwise it is a resource of the mapped model carrying the response body |
| `Retriever.PreVerification` | src/Retriever.php:184-199 | a response is ignored iff it is not 2xx; it passes iff it is 2xx and content-type verification accepts it; otherwise the retrieval aborts with the verification's exception |
| `Retriever.Retriever.constructor` | src/Retriever.php:47-59 | the three fields hold the given client, allowed types and flag; the defaults are an empty list and "allowed" |
| `Retriever.Retriever.SetHttpClient` | src/Retriever.php:64-67 | replaces the client and leaves the other two fields unchanged |
| `Retriever.Retriever.SetAllowedContentTypes` | src/Retriever.php:72-75 | replaces the allowed-types list (default empty) and leaves the other two fields unchanged |
| `Retriever.Retriever.SetAllowUnknownResourceTypes` | src/Retriever.php:80-83 | replaces the flag (default true) and leaves the other two fields unchanged |
| `Retriever.Retriever.PreVerifyContentType` | src/Retriever.php:184-199 | consumes one response; a non-2xx response is ignored, a 2xx one passes or aborts with the verification's exception; a failed send aborts |
| `Retriever.Retriever.Retrieve` | src/Retriever.php:100-132 | the outcome and the responses consumed from the client are exactly those of `Retrieval` for the retriever's settings; the settings and the client reference are unchanged |
| `Http.HttpClient.Send` | src/Retriever.php:109-113 | yields the next response whatever its status (a bad response is caught and kept) and consumes it; yields nothing when no response is left |
| `Retriever.MainOutcome` | src/Retriever.php:115-131 | a non-2xx main response gives a status exception with its own code, whatever its content type; a 2xx one gives the content-type verdict |
| `RetrieverProperties.OutcomeDecidedByLastResponse` | src/Retriever.php:100-132 | every outcome except a failed send comes from the last response consumed: a status exception with its code iff it is not 2xx, otherwise content-type verification of it |
| `RetrieverProperties.ResourceOnlyFromSuccess` | src/Retriever.php:115-131 | a resource is built only from a 2xx response, carries that response's body, and is never of the generic model when unknown types are forbidden |
| `RetrieverProperties.InvalidContentTypeIff` | src/Retriever.php:147-155 | a retrieval ends in an invalid content type iff unknown types are forbidden and the deciding 2xx response's type parses and maps to the generic model; the exception carries that parsed type |
| `RetrieverProperties.UnknownAllowedYieldsResource` | src/Retriever.php:102-131 | with unknown types allowed, a 2xx response with a parseable type yields a resource of its mapped model with its body, after one send |
| `RetrieverProperties.NonSuccessPreVerificationIgnored` | src/Retriever.php:184-194 | a non-2xx pre-verification response is ignored: the main request is still sent and decides the outcome alone |
| `RetrieverProperties.GenericPreVerificationAborts` | src/Retriever.php:102-107 | a 2xx pre-verification response mapping to the generic model ends the retrieval after one send, with that type, before the main request |
| `Retriever.Retrieval` | src/Retriever.php:100-132 | a retrieval consumes at most two responses and never more than exist; when it ends without a response it has used them all; any other outcome comes after at least one send |
| `RetrieverProperties.ResponseCount` | tests/RetrieverTest.php:63 | given two responses, one is consumed when unknown types are allowed or pre-verification throws, two otherwise |
| `RetrieverProperties.AllowedContentTypesIgnored` | src/Retriever.php:72-75 | two settings that agree on the unknown-types flag give the same outcome and count, whatever their allowed-types lists |
| `RetrieverProperties.MissingHeaderReportsEmptyType` | src/Retriever.php:214-219 | an absent content-type header is parsed as the empty string, so a rejected header-less response reports the empty type after one send |
| `RetrieverProperties.StatusExceptionScenarios` | tests/RetrieverTest.php:72-117 | 404, 404 after pre-verification, 500, 100 and 301 each give a status exception with that code and use every fixture |
| `RetrieverProperties.InvalidContentTypeScenarios` | tests/RetrieverTest.php:172-215 | the four rejected fixtures report "" or text/plain and use every fixture |
| `RetrieverProperties.SuccessScenarios` | tests/RetrieverTest.php:261-299 | text/plain, text/html and application/json give the generic, web-page and JSON models with their bodies; pre-verified text/html uses both fixtures |
| `UnparseableContentType.SprintfSubstitutes` | src/Exception/UnparseableContentTypeException.php:20 | formatting a template "prefix%ssuffix" whose prefix holds no '%' yields prefix, argument, suffix |
| `UnparseableContentType.Sprintf` | src/Exception/UnparseableContentTypeException.php:20 | a template without '%' is copied unchanged; with `SprintfSubstitutes`, a template's one `%s` is replaced by the argument |
| `UnparseableContentType.UnparseableContentTypeException.GetContentType` | src/Exception/UnparseableContentTypeException.php:28-31 | returns the stored string, which for a well-formed exception is exactly the string its message names |
| `UnparseableContentType.New` | src/Exception/UnparseableContentTypeException.php:7-31 | the message is `Unparseable content type "` + s + `"`, the code is 0, the getter returns s, and the exception is well formed |
| `UnparseableContentType.MessageRoundTrip` | src/Exception/UnparseableContentTypeException.php:7 | stripping the fixed prefix and the closing quote from the message recovers the content-type string |
| `UnparseableContentType.MessageFromRecovered` | src/Exception/UnparseableContentTypeException.php:20 | any message of the template's shape is exactly the message built from the string recovered from it |
| `UnparseableContentType.WellformedIsConstructed` | src/Exception/UnparseableContentTypeException.php:18-23 | an exception whose fields agree as the constructor sets them is exactly the one the constructor builds from its stored string |
| `UnparseableContentType.MessagesDistinct` | src/Exception/UnparseableContentTypeException.php:20 | distinct content-type strings give distinct messages |

## Left out

- The HTTP transport (Guzzle's `send`, redirects, connection errors) is not modelled. A client is the sequence of responses it yields. A send with no response left stands for a transport exception that propagates (`NoResponse`).
- Retriever.Retriever.constructor: the null-client default (a fresh Guzzle client, src/Retriever.php:52-54) is not modelled; the model always takes a client, because a default client's responses come from the network.
- The pre-verification request is meant to be a HEAD request. The call `withMethod('HEAD')` (src/Retriever.php:104) discards its result, so the request sent is an unchanged clone. The model sends plain requests and does not distinguish request methods.
- The media-type parser, its recovery flags (src/Retriever.php:210-212), and the `models` predicates of the web-page and JSON-document classes are not part of this model. They are parameters, and only the facts the tests fix are assumed, in `AgreesWithTests`. A parsed type is represented by its string form.
- The request URI that a resource and the exceptions carry is not modelled.
- The status exception keeps only its code; its reason-phrase message is not modelled.
- The invalid-content-type exception keeps only its parsed type. Its message (`Invalid content type "…"`) and its code, both asserted by tests/RetrieverTest.php:154-155, are not modelled: that exception's class is not part of this model.
- UnparseableContentType.Sprintf: models only the `%s` conversion, the only one in the message template; `%%` and other conversions are not modelled. A non-string constructor argument is not modelled either.
- The sitemap classes (detector, URL extractors, `Sitemap`, its factory) and the web-page character-set parser are not part of this model: their implementations are not among the modelled files.
