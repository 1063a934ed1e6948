/** The userinfo token-exchange client: a mutable request object holding a request
    initializer, a client authentication interceptor, the server URL and the scope
    parameter, which posts itself to the server and either returns the successful
    response or throws the typed exception built from the failed one. */
module Request {
  import opened Java
  import opened Http
  import opened UserInfo
  import opened ResponseException

  /** A GenericUrl, reduced to its text and its fragment (null when absent). */
  datatype Url = Url(address: string, fragment: Option<string>)

  /** An HttpExecuteInterceptor. `Action` is any interceptor supplied from outside
      (a bearer credential, a request signer): running it appends its name to the
      request's trace. `Failing` is one whose intercept throws IOException.
      `AuthLast` is the interceptor executeUnparsed installs on every request: the
      interceptor found on the request, then client authentication, each skipped
      when null. */
  datatype Interceptor =
    | Action(name: string)
    | Failing
    | AuthLast(existing: Option<Interceptor>, clientAuthentication: Option<Interceptor>)

  /** Running an interceptor: the actions it appends to the request's trace, in
      order, or IOException. Within `AuthLast` an IOException from the existing
      interceptor propagates before client authentication runs. */
  function Run(i: Interceptor): Io<seq<string>> {
    match i
    case Action(name) => Ok([name])
    case Failing => IoError
    case AuthLast(existing, auth) =>
      match (if existing.Some? then Run(existing.value) else Ok([]))
      case IoError => IoError
      case Ok(first) =>
        match (if auth.Some? then Run(auth.value) else Ok([]))
        case IoError => IoError
        case Ok(last) => Ok(first + last)
  }

  /** Running a possibly null interceptor: null does nothing. */
  function RunOf(i: Option<Interceptor>): Io<seq<string>> {
    if i.Some? then Run(i.value) else Ok([])
  }

  /** An HttpRequestInitializer: it may install an interceptor on the request it
      initializes, or its initialize may throw IOException (`fails`). */
  datatype Initializer = Initializer(installs: Option<Interceptor>, fails: bool)

  /** The request's interceptor after the (possibly null) initializer has run without throwing. */
  function InstalledBy(init: Option<Initializer>, current: Option<Interceptor>): Option<Interceptor> {
    if init.Some? && init.value.installs.Some? then init.value.installs else current
  }

  /** What reaches the wire: the URL, the URL-encoded `scope` parameter and the
      actions the interceptors performed, in order. */
  datatype SentRequest = SentRequest(url: Option<Url>, scope: Option<string>, trace: seq<string>)

  /** An HttpTransport: sends a request and returns the response or throws IOException. */
  datatype HttpTransport = HttpTransport(send: SentRequest -> Io<HttpResponse>)

  /** Why executing a request failed: the typed exception for a non-success
      response, or an IOException from the transport or the parser. */
  datatype RequestFailure = Rejected(exception: UserInfoResponseException) | IoFailure

  /** The library's HttpRequest, as far as the client touches it: built for a URL and
      content, given an interceptor, and run through it before it is sent. */
  class HttpRequest {
    const url: Option<Url>
    const scope: Option<string>
    var interceptor: Option<Interceptor>
    var trace: seq<string>

    constructor (url: Option<Url>, scope: Option<string>)
      ensures this.url == url && this.scope == scope
      ensures interceptor.None? && trace == []
    {
      this.url, this.scope := url, scope;
      interceptor, trace := None, [];
    }

    /** An initializer's initialize(request); `ok` is false when it throws
        IOException, and the request is then left as it was. */
    method Initialize(init: Initializer) returns (ok: bool)
      modifies this`interceptor
      ensures ok <==> !init.fails
      ensures ok ==> interceptor == InstalledBy(Some(init), old(interceptor))
      ensures !ok ==> interceptor == old(interceptor)
    {
      if init.fails {
        return false;
      }
      if init.installs.Some? {
        interceptor := init.installs;
      }
      ok := true;
    }

    /** The library runs the request's interceptor just before sending; `ok` is
        false when it throws IOException, and the request is then not sent. */
    method Intercept() returns (ok: bool)
      modifies this`trace
      ensures ok <==> RunOf(interceptor).Ok?
      ensures ok ==> trace == old(trace) + RunOf(interceptor).value
      ensures !ok ==> trace == old(trace)
    {
      var outcome := RunOf(interceptor);
      if outcome.IoError? {
        return false;
      }
      trace := trace + outcome.value;
      ok := true;
    }
  }

  /** The four fields the setters change, as a value. */
  datatype Settings = Settings(
    requestInitializer: Option<Initializer>,
    clientAuthentication: Option<Interceptor>,
    serverUrl: Option<Url>,
    scopes: Option<string>)

  class UserInfoRequest {
    var requestInitializer: Option<Initializer>
    var clientAuthentication: Option<Interceptor>
    const transport: HttpTransport
    const jsonFactory: JsonFactory
    var serverUrl: Option<Url>
    var scopes: Option<string>

    /** The constructor proper, reached once transport and JSON factory are known
        to be non-null; it stores the URL through setServerUrl. */
    constructor Init(transport: HttpTransport, jsonFactory: JsonFactory, serverUrl: Url)
      requires serverUrl.fragment.None?
      ensures this.transport == transport && this.jsonFactory == jsonFactory
      ensures Current() == Settings(None, None, Some(serverUrl), None)
    {
      this.transport, this.jsonFactory := transport, jsonFactory;
      requestInitializer, clientAuthentication, scopes := None, None, None;
      this.serverUrl := None;
      new;
      var _ := SetServerUrl(Some(serverUrl));
    }

    /** `new UserInfoRequest(transport, jsonFactory, serverUrl)`: a null transport,
        a null JSON factory or a null URL throws NullPointerException, in that order
        of checking, and a URL with a fragment throws IllegalArgumentException. */
    static method Create(transport: Option<HttpTransport>, jsonFactory: Option<JsonFactory>, serverUrl: Option<Url>)
      returns (r: Result<UserInfoRequest, Exception>)
      ensures r.Failure? <==> transport.None? || jsonFactory.None? || serverUrl.None? || serverUrl.value.fragment.Some?
      ensures r.Failure? && (transport.None? || jsonFactory.None? || serverUrl.None?) ==> r.error == NullPointer
      ensures r.Failure? && transport.Some? && jsonFactory.Some? && serverUrl.Some? ==> r.error == IllegalArgument
      ensures r.Success? ==> fresh(r.value)
      ensures r.Success? ==> r.value.transport == transport.value && r.value.jsonFactory == jsonFactory.value
      ensures r.Success? ==> r.value.Current() == Settings(None, None, serverUrl, None)
    {
      if transport.None? || jsonFactory.None? || serverUrl.None? {
        return Failure(NullPointer);
      }
      if serverUrl.value.fragment.Some? {
        return Failure(IllegalArgument);
      }
      var request := new UserInfoRequest.Init(transport.value, jsonFactory.value, serverUrl.value);
      r := Success(request);
    }

    /** The current settings. */
    function Current(): Settings
      reads this
    {
      Settings(requestInitializer, clientAuthentication, serverUrl, scopes)
    }

    /** setRequestInitializer: accepts null, changes only the initializer, returns this. */
    method SetRequestInitializer(value: Option<Initializer>) returns (r: UserInfoRequest)
      modifies this`requestInitializer
      ensures r == this
      ensures Current() == old(Current()).(requestInitializer := value)
    {
      requestInitializer := value;
      r := this;
    }

    /** setClientAuthentication: accepts null, changes only the client authentication, returns this. */
    method SetClientAuthentication(value: Option<Interceptor>) returns (r: UserInfoRequest)
      modifies this`clientAuthentication
      ensures r == this
      ensures Current() == old(Current()).(clientAuthentication := value)
    {
      clientAuthentication := value;
      r := this;
    }

    /** setServerUrl stores the URL first and checks it afterwards, so a rejected
        URL (null, or with a fragment) is already in place when the exception is thrown. */
    method SetServerUrl(value: Option<Url>) returns (r: Result<UserInfoRequest, Exception>)
      modifies this`serverUrl
      ensures Current() == old(Current()).(serverUrl := value)
      ensures value.None? ==> r == Failure(NullPointer)
      ensures value.Some? && value.value.fragment.Some? ==> r == Failure(IllegalArgument)
      ensures value.Some? && value.value.fragment.None? ==> r == Success(this)
    {
      serverUrl := value;
      if value.None? {
        return Failure(NullPointer);
      }
      if value.value.fragment.Some? {
        return Failure(IllegalArgument);
      }
      r := Success(this);
    }

    /** setScopes: null stays null; otherwise the scopes, in iteration order, joined
        by single spaces. */
    method SetScopes(values: Option<seq<string>>) returns (r: UserInfoRequest)
      modifies this`scopes
      ensures r == this
      ensures values.None? ==> Current() == old(Current()).(scopes := None)
      ensures values.Some? ==> Current() == old(Current()).(scopes := Some(Join(values.value, ' ')))
    {
      scopes := if values.None? then None else Some(Join(values.value, ' '));
      r := this;
    }

    /** The request an execution sends: to the server URL, with the scope parameter
        as content, shaped first by whatever interceptor the initializer installs and
        last by client authentication. It is IOException, and nothing is sent, when
        the request initializer or either interceptor throws. */
    function Prepared(): (r: Io<SentRequest>)
      reads this
      ensures r.IoError? <==>
        || (requestInitializer.Some? && requestInitializer.value.fails)
        || RunOf(InstalledBy(requestInitializer, None)).IoError?
        || RunOf(clientAuthentication).IoError?
      ensures r.Ok? ==> r.value.url == serverUrl && r.value.scope == scopes
      ensures r.Ok? ==>
        r.value.trace == RunOf(InstalledBy(requestInitializer, None)).value + RunOf(clientAuthentication).value
    {
      if requestInitializer.Some? && requestInitializer.value.fails then IoError
      else
        match Run(AuthLast(InstalledBy(requestInitializer, None), clientAuthentication))
        case IoError => IoError
        case Ok(trace) => Ok(SentRequest(serverUrl, scopes, trace))
    }

    /** The response the transport returns for the prepared request, or IOException
        from preparing or sending it. */
    function Received(): Io<HttpResponse>
      reads this
    {
      if Prepared().IoError? then IoError else transport.send(Prepared().value)
    }

    /** What executeUnparsed returns or throws: the response only for a 2xx status,
        the exception built by `from` for any other status, and IOException when
        preparing the request or the transport fails. */
    function UnparsedOutcome(lib: Library): (r: Result<HttpResponse, RequestFailure>)
      reads this
      ensures r.Success? <==> Received().Ok? && IsSuccessStatusCode(Received().value.statusCode)
      ensures r.Success? ==> r.value == Received().value
      ensures r.Failure? && r.error.Rejected? ==>
        && Received().Ok?
        && var response := Received().value;
        && !IsSuccessStatusCode(response.statusCode)
        && r.error.exception == From(Some(jsonFactory), response, lib).value
        && r.error.exception.statusCode == response.statusCode
        && r.error.exception.statusMessage == response.statusMessage
        && r.error.exception.headers == response.headers
        && r.error.exception.GetDetails() == ExtractDetails(response, lib).details
      ensures r == Failure(IoFailure) <==> Received().IoError?
      ensures Prepared().IoError? ==> r == Failure(IoFailure)
    {
      match Received()
      case IoError => Failure(IoFailure)
      case Ok(response) =>
        if IsSuccessStatusCode(response.statusCode) then Success(response)
        else Failure(Rejected(From(Some(jsonFactory), response, lib).value))
    }

    /** The anonymous initializer of executeUnparsed: run the request initializer,
        then wrap whatever interceptor the request has so that client authentication
        runs after it. An IOException from the request initializer stops it early. */
    method InitializeRequest(request: HttpRequest) returns (ok: bool)
      modifies request`interceptor
      ensures ok <==> !(requestInitializer.Some? && requestInitializer.value.fails)
      ensures ok ==> request.interceptor == Some(AuthLast(InstalledBy(requestInitializer, old(request.interceptor)), clientAuthentication))
      ensures !ok ==> request.interceptor == old(request.interceptor)
    {
      if requestInitializer.Some? {
        ok := request.Initialize(requestInitializer.value);
        if !ok {
          return;
        }
      }
      var interceptor := request.interceptor;
      request.interceptor := Some(AuthLast(interceptor, clientAuthentication));
      ok := true;
    }

    /** executeUnparsed: build the POST request, let the interceptors shape it,
        send it and split on the status. */
    method ExecuteUnparsed(lib: Library) returns (r: Result<HttpResponse, RequestFailure>)
      ensures r == UnparsedOutcome(lib)
    {
      var request := new HttpRequest(serverUrl, scopes);
      var ok := InitializeRequest(request);
      if !ok {
        return Failure(IoFailure);
      }
      ghost var wrapped := AuthLast(InstalledBy(requestInitializer, None), clientAuthentication);
      assert request.interceptor == Some(wrapped) && request.trace == [];
      ok := request.Intercept();
      if !ok {
        return Failure(IoFailure);
      }
      assert request.trace == Run(wrapped).value;
      var sent := SentRequest(request.url, request.scope, request.trace);
      assert Prepared() == Ok(sent);
      var outcome := transport.send(sent);
      if outcome.IoError? {
        return Failure(IoFailure);
      }
      var response := outcome.value;
      if IsSuccessStatusCode(response.statusCode) {
        return Success(response);
      }
      var e := From(Some(jsonFactory), response, lib);
      r := Failure(Rejected(e.value));
    }

    /** execute: parse, as userinfo claims, exactly the response executeUnparsed returned. */
    method Execute(lib: Library) returns (r: Result<Claims, RequestFailure>)
      ensures r.Success? ==> UnparsedOutcome(lib).Success? && UnparsedOutcome(lib).value.claimsParse == Ok(r.value)
      ensures r.Success? ==> IsSuccessStatusCode(Received().value.statusCode)
      ensures UnparsedOutcome(lib).Success? && UnparsedOutcome(lib).value.claimsParse.Ok? ==>
        r == Success(UnparsedOutcome(lib).value.claimsParse.value)
      ensures UnparsedOutcome(lib).Failure? ==> r == Failure(UnparsedOutcome(lib).error)
      ensures UnparsedOutcome(lib).Success? && UnparsedOutcome(lib).value.claimsParse.IoError? ==> r == Failure(IoFailure)
    {
      var response := ExecuteUnparsed(lib);
      if response.Failure? {
        return Failure(response.error);
      }
      match response.value.claimsParse
      case IoError => r := Failure(IoFailure);
      case Ok(claims) => r := Success(claims);
    }
  }

  /** Client authentication acts last: an IOException from the existing interceptor
      means client authentication never gets to run, and otherwise an action-type
      client authentication ends the trace, after everything the existing
      interceptor did. */
  lemma ClientAuthenticationRunsLast(existing: Option<Interceptor>, name: string)
    ensures RunOf(existing).IoError? ==> Run(AuthLast(existing, Some(Action(name)))).IoError?
    ensures RunOf(existing).Ok? ==>
      var t := Run(AuthLast(existing, Some(Action(name))));
      && t.Ok?
      && |t.value| == |RunOf(existing).value| + 1
      && t.value[..|t.value| - 1] == RunOf(existing).value
      && t.value[|t.value| - 1] == name
  {
  }

  /** The stored scope parameter lists the scopes as section 3.3 of RFC 6749 asks:
      split on single spaces it gives back the scopes, in order, when none of them
      contains a space. */
  lemma ScopeParameterListsScopes(values: seq<string>)
    requires |values| > 0
    requires forall k | 0 <= k < |values| :: ' ' !in values[k]
    ensures Pieces(Join(values, ' '), ' ') == values
  {
    PiecesOfJoin(values, ' ');
  }
}
