/** What the userinfo client sees of the HTTP client library, kept abstract: a
    response is a record of the facts the client reads from it, including the
    outcome of each way of reading its body, and the library routines whose code
    lies outside this model are parameters bundled in `Library`. */
module Http {
  import opened Java
  import opened ErrorResponse
  import opened UserInfo

  /** The outcome of an operation declared to throw IOException. */
  datatype Io<+T> = Ok(value: T) | IoError {
    function ToOption(): (r: Option<T>)
      ensures r.Some? <==> Ok?
      ensures Ok? ==> r.value == value
    {
      if Ok? then Some(value) else None
    }
  }

  /** Response headers, by name. */
  type Headers = map<string, seq<string>>

  /** A received HTTP response. */
  datatype HttpResponse = HttpResponse(
    statusCode: int,
    statusMessage: Option<string>,
    headers: Headers,
    contentType: Option<string>,     // getContentType()
    content: Io<bool>,               // getContent(): whether it returns a stream (not null), or throws
    errorParse: Io<ErrorFields>,     // parsing the body as an error response with the JSON parser
    claimsParse: Io<Claims>,         // parsing the body as userinfo claims with the JSON parser
    rawBody: Io<string>)             // parseAsString()

  /** HttpStatusCodes.isSuccess: a 2xx status. */
  predicate IsSuccessStatusCode(statusCode: int) {
    200 <= statusCode < 300
  }

  /** The JSON factory handed to the client; its parsing shows up in the response's parse outcomes. */
  datatype JsonFactory = JsonFactory(name: string)

  /** Library routines whose code is not part of this model. */
  datatype Library = Library(
    lineSeparator: string,                  // StringUtils.LINE_SEPARATOR
    isJsonMediaType: string -> bool,        // HttpMediaType.equalsIgnoreParameters(Json.MEDIA_TYPE, ·)
    messageBuffer: HttpResponse -> string,  // HttpResponseException.computeMessageBuffer
    prettyString: ErrorFields -> Io<string>) // GenericJson.toPrettyString
}
