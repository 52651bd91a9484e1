/**
 * The media-type collaborators of the retriever: the internet-media-type
 * parser and the two resource models that claim content types of their own
 * (a web page and a JSON document). Their implementations are not part of
 * this model; they are given as values, and AgreesWithTests records the facts
 * about them that the retriever's tests rely on.
 */
module MediaTypes {
  import opened Wrappers

  /** A parsed internet media type, identified by its string form. */
  datatype MediaType = MediaType(text: string)

  /**
   * parse: the media-type parser (None when it raises its parse exception);
   * webPageModels, jsonDocumentModels: whether the web-page model and the
   * JSON-document model claim a parsed type.
   */
  datatype MediaTypeLibrary = MediaTypeLibrary(
    parse: string -> Option<MediaType>,
    webPageModels: MediaType -> bool,
    jsonDocumentModels: MediaType -> bool)

  /**
   * The behaviour of the collaborators that the retriever's tests exercise:
   * the empty header and the three types used parse to themselves;
   * text/html is a web page, application/json a JSON document (and not a web
   * page), and neither model claims text/plain or the empty type.
   */
  ghost predicate AgreesWithTests(lib: MediaTypeLibrary) {
    && lib.parse("") == Some(MediaType(""))
    && lib.parse("text/plain") == Some(MediaType("text/plain"))
    && lib.parse("text/html") == Some(MediaType("text/html"))
    && lib.parse("application/json") == Some(MediaType("application/json"))
    && lib.webPageModels(MediaType("text/html"))
    && !lib.webPageModels(MediaType("application/json"))
    && lib.jsonDocumentModels(MediaType("application/json"))
    && !lib.webPageModels(MediaType("text/plain"))
    && !lib.jsonDocumentModels(MediaType("text/plain"))
    && !lib.webPageModels(MediaType(""))
    && !lib.jsonDocumentModels(MediaType(""))
  }
}
