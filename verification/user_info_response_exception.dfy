/** The typed failure a non-success userinfo response turns into: it always keeps
    the response's status code, status message and headers, carries the parsed
    error response when the body is a JSON error, and otherwise folds the raw body
    into its message. */
module ResponseException {
  import opened Java
  import opened Http
  import opened ErrorResponse

  /** HttpResponseException.Builder: starts with the response's status and headers;
      content and message are set later. */
  datatype Builder = Builder(
    statusCode: int,
    statusMessage: Option<string>,
    headers: Headers,
    content: Option<string>,
    message: Option<string>)

  /** An immutable UserInfoResponseException. */
  datatype UserInfoResponseException = UserInfoResponseException(
    statusCode: int,
    statusMessage: Option<string>,
    headers: Headers,
    content: Option<string>,
    message: Option<string>,
    details: Option<ErrorFields>)
  {
    /** The structured details, or null when none were parsed. */
    function GetDetails(): Option<ErrorFields> {
      details
    }
  }

  /** The constructor: everything the builder holds, plus the details given. */
  function NewException(builder: Builder, details: Option<ErrorFields>): (e: UserInfoResponseException)
    ensures e.GetDetails() == details
    ensures e.statusCode == builder.statusCode && e.statusMessage == builder.statusMessage
    ensures e.headers == builder.headers && e.content == builder.content && e.message == builder.message
  {
    UserInfoResponseException(builder.statusCode, builder.statusMessage, builder.headers,
                              builder.content, builder.message, details)
  }

  /** The locals `details` and `detailString` once the try block of `from` is over. */
  datatype Details = Details(details: Option<ErrorFields>, detailString: Option<string>)

  /** The four conditions under which `from` parses the body as a JSON error response. */
  predicate JsonErrorCase(response: HttpResponse, lib: Library) {
    && !IsSuccessStatusCode(response.statusCode)
    && response.contentType.Some?
    && response.content == Ok(true)
    && lib.isJsonMediaType(response.contentType.value)
  }

  /** The one case in which evaluating the condition itself throws: getContent() fails. */
  predicate ContentFetchFails(response: HttpResponse) {
    !IsSuccessStatusCode(response.statusCode) && response.contentType.Some? && response.content.IoError?
  }

  /** The try block of `from`: a JSON error body is parsed and pretty-printed, any
      other body is read raw, and an IOException anywhere leaves the locals as they were. */
  function ExtractDetails(response: HttpResponse, lib: Library): (d: Details)
    ensures d.details.Some? <==> JsonErrorCase(response, lib) && response.errorParse.Ok?
    ensures d.details.Some? ==> d.details.value == response.errorParse.value
    ensures d.details.Some? ==> d.detailString == lib.prettyString(d.details.value).ToOption()
    ensures !JsonErrorCase(response, lib) && !ContentFetchFails(response) ==> d.detailString == response.rawBody.ToOption()
    ensures JsonErrorCase(response, lib) && response.errorParse.IoError? ==> d == Details(None, None)
    ensures ContentFetchFails(response) ==> d == Details(None, None)
  {
    if !IsSuccessStatusCode(response.statusCode) && response.contentType.Some? then
      match response.content
      case IoError => Details(None, None)
      case Ok(present) =>
        if present && lib.isJsonMediaType(response.contentType.value) then
          match response.errorParse
          case IoError => Details(None, None)
          case Ok(details) => Details(Some(details), lib.prettyString(details).ToOption())
        else
          Details(None, response.rawBody.ToOption())
    else
      Details(None, response.rawBody.ToOption())
  }

  /** UserInfoResponseException.from. A null JSON factory is rejected; otherwise an
      exception is always produced, with the response's status and headers, and with
      the detail string appended to the message (after a line separator) and set as
      content exactly when it is neither null nor empty. */
  function From(jsonFactory: Option<JsonFactory>, response: HttpResponse, lib: Library): (r: Result<UserInfoResponseException, Exception>)
    ensures r.Failure? <==> jsonFactory.None?
    ensures r.Failure? ==> r.error == NullPointer
    ensures r.Success? ==> r.value.statusCode == response.statusCode
    ensures r.Success? ==> r.value.statusMessage == response.statusMessage && r.value.headers == response.headers
    ensures r.Success? ==> r.value.GetDetails() == ExtractDetails(response, lib).details
    ensures r.Success? && IsNullOrEmpty(ExtractDetails(response, lib).detailString) ==>
      r.value.message == Some(lib.messageBuffer(response)) && r.value.content.None?
    ensures r.Success? && !IsNullOrEmpty(ExtractDetails(response, lib).detailString) ==>
      var detail := ExtractDetails(response, lib).detailString.value;
      r.value.message == Some(lib.messageBuffer(response) + lib.lineSeparator + detail)
      && r.value.content == Some(detail)
  {
    var builder := Builder(response.statusCode, response.statusMessage, response.headers, None, None);
    if jsonFactory.None? then Failure(NullPointer)
    else
      var d := ExtractDetails(response, lib);
      var message := lib.messageBuffer(response);
      var builder' :=
        if !IsNullOrEmpty(d.detailString)
        then builder.(content := d.detailString, message := Some(message + lib.lineSeparator + d.detailString.value))
        else builder.(message := Some(message));
      Success(NewException(builder', d.details))
  }

  /** Structured details appear only for a non-success response with a content type,
      a body, and a type that is JSON up to parameters. */
  lemma DetailsOnlyForJsonErrors(jsonFactory: JsonFactory, response: HttpResponse, lib: Library)
    ensures From(Some(jsonFactory), response, lib).value.GetDetails().Some? ==>
      && !IsSuccessStatusCode(response.statusCode)
      && response.contentType.Some?
      && response.content == Ok(true)
      && lib.isJsonMediaType(response.contentType.value)
  {
  }

  /** Outside the JSON error case, no details are kept and a non-empty raw body
      becomes both the exception's content and the tail of its message. */
  lemma RawBodyFallback(jsonFactory: JsonFactory, response: HttpResponse, lib: Library, body: string)
    requires !JsonErrorCase(response, lib) && !ContentFetchFails(response)
    requires response.rawBody == Ok(body) && body != ""
    ensures From(Some(jsonFactory), response, lib).value.GetDetails().None?
    ensures From(Some(jsonFactory), response, lib).value.content == Some(body)
    ensures From(Some(jsonFactory), response, lib).value.message == Some(lib.messageBuffer(response) + lib.lineSeparator + body)
  {
  }

  /** An IOException while extracting details is swallowed, wherever it is thrown
      (getContent, the JSON parse, toPrettyString or parseAsString): the exception
      still comes back, with the bare message, no content, and the original status. */
  lemma IoErrorsAreSwallowed(jsonFactory: JsonFactory, response: HttpResponse, lib: Library)
    requires ContentFetchFails(response)
      || (JsonErrorCase(response, lib) && response.errorParse.IoError?)
      || (JsonErrorCase(response, lib) && response.errorParse.Ok? && lib.prettyString(response.errorParse.value).IoError?)
      || (!JsonErrorCase(response, lib) && response.rawBody.IoError?)
    ensures From(Some(jsonFactory), response, lib).Success?
    ensures From(Some(jsonFactory), response, lib).value.message == Some(lib.messageBuffer(response))
    ensures From(Some(jsonFactory), response, lib).value.content.None?
    ensures From(Some(jsonFactory), response, lib).value.statusCode == response.statusCode
  {
  }

  /** A 400 response typed as JSON whose body parses to error "invalid_grant" yields
      details whose error is "invalid_grant". */
  lemma InvalidGrantIsStructured(jsonFactory: JsonFactory, response: HttpResponse, lib: Library)
    requires response.statusCode == 400 && response.contentType.Some?
    requires lib.isJsonMediaType(response.contentType.value) && response.content == Ok(true)
    requires response.errorParse.Ok? && response.errorParse.value.error == Some("invalid_grant")
    ensures From(Some(jsonFactory), response, lib).value.GetDetails().Some?
    ensures From(Some(jsonFactory), response, lib).value.GetDetails().value.error == Some("invalid_grant")
  {
  }
}
