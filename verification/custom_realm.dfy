/** The authentication realm: it pulls a username/password token out of the request
    headers, says which tokens it supports, answers the callback form of authenticate
    with a user whose group list is empty, and refuses user lookup and the deprecated
    direct authenticate. */
module Realm {
  import opened Java

  /** The request's headers, by exact name. */
  type RequestHeaders = map<string, string>

  const AuthHeader: string := "authorization"
  const UserHeader: string := "User"
  const PasswordHeader: string := "Password"

  /** threadContext.getHeader(name): null when absent. */
  function GetHeader(headers: RequestHeaders, name: string): Option<string> {
    if name in headers then Some(headers[name]) else None
  }

  /** An AuthenticationToken: the realm's own username/password kind, or any other kind. */
  datatype AuthenticationToken =
    | UsernamePasswordToken(principal: Option<string>, credentials: string)
    | OtherToken(kind: string)

  /** What `token` does: no token (null), a username/password token, or an exception. */
  datatype Extraction =
    | NoToken
    | Credentials(principal: Option<string>, secret: string)
    | Raised(error: Exception)
  {
    /** The token handed to the host when one was extracted. */
    function AsToken(): AuthenticationToken
      requires Credentials?
    {
      UsernamePasswordToken(principal, secret)
    }
  }

  /** `new String(Base64.getDecoder().decode(s))`, left abstract: None when the
      decoder throws IllegalArgumentException. */
  type Base64Decoder = string -> Option<string>

  /** The two facts of java.util.Base64's basic decoder the realm's code runs into:
      the empty input decodes to nothing, and a single character is too short to
      decode and is rejected. */
  ghost predicate IsBasicBase64Decoder(decode: Base64Decoder) {
    && decode("") == Some("")
    && forall s: string :: |s| == 1 ==> decode(s) == None
  }

  /** retrievePasswordFromToken: a null value throws; a value without a colon is
      the whole secret; otherwise the secret is everything after the first colon,
      later colons included. */
  function RetrievePasswordFromToken(token: Option<string>): (r: Result<string, Exception>)
    ensures token.None? <==> r.Failure?
    ensures r.Failure? ==> r.error == NullPointer
    ensures token.Some? && ':' !in token.value ==> r == Success(token.value)
    ensures token.Some? && ':' in token.value ==>
      var t, s := token.value, r.value;
      && |s| < |t|
      && t == t[..|t| - |s| - 1] + [':'] + s
      && ':' !in t[..|t| - |s| - 1]
  {
    if token.None? then Failure(NullPointer)
    else
      var t := token.value;
      var i := IndexOf(t, ':');
      if i < 0 then Success(t)
      else
        assert t == t[..i] + [':'] + t[i + 1..];
        Success(t[i + 1..])
  }

  /** usernamePasswordToken: no token when neither User nor Password is present;
      otherwise the User value (possibly null) with the secret taken from Password. */
  function UsernamePasswordFromHeaders(headers: RequestHeaders): (r: Extraction)
    ensures r.NoToken? <==> UserHeader !in headers && PasswordHeader !in headers
    ensures UserHeader in headers && PasswordHeader !in headers ==> r == Raised(NullPointer)
    ensures PasswordHeader in headers ==> r.Credentials? && r.principal == GetHeader(headers, UserHeader)
  {
    if GetHeader(headers, UserHeader).None? && GetHeader(headers, PasswordHeader).None? then NoToken
    else
      var username := GetHeader(headers, UserHeader);
      match RetrievePasswordFromToken(GetHeader(headers, PasswordHeader))
      case Failure(e) => Raised(e)
      case Success(password) => Credentials(username, password)
  }

  /** The piece of the authorization header that is handed to the decoder:
      `authStr.substring(authStr.lastIndexOf(" "), 1)`. It throws when the last
      space is past index 1; otherwise it is the space itself (last space at 0) or
      empty (last space at 1), and never any of the text after the last space. */
  function AuthSegment(authStr: string): (r: Result<string, Exception>)
    requires ' ' in authStr
    ensures r.Failure? <==> LastIndexOf(authStr, ' ') > 1
    ensures r.Failure? ==> r.error == StringIndexOutOfBounds
    ensures r.Success? ==> |r.value| <= 1
    ensures r.Success? ==> (r.value == " " <==> LastIndexOf(authStr, ' ') == 0)
    ensures r.Success? ==> (r.value == "" <==> LastIndexOf(authStr, ' ') == 1)
  {
    Substring(authStr, LastIndexOf(authStr, ' '), 1)
  }

  /** `token(threadContext)`. */
  function Token(headers: RequestHeaders, decode: Base64Decoder): (r: Extraction)
    ensures AuthHeader !in headers ==> r == UsernamePasswordFromHeaders(headers)
    ensures AuthHeader in headers ==> !r.NoToken?
    ensures AuthHeader in headers && ' ' !in headers[AuthHeader] ==>
      r == Raised(Runtime("Unable to verify token from header: " + headers[AuthHeader]))
  {
    match GetHeader(headers, AuthHeader)
    case None => UsernamePasswordFromHeaders(headers)
    case Some(authStr) =>
      if LastIndexOf(authStr, ' ') < 0 then Raised(Runtime("Unable to verify token from header: " + authStr))
      else
        match AuthSegment(authStr)
        case Failure(e) => Raised(e)
        case Success(authB64) =>
          match decode(authB64)
          case None => Raised(IllegalArgument)
          case Some(text) =>
            var authArr := Split(text, ':');
            if |authArr| < 1 then Raised(ArrayIndexOutOfBounds)       // authArr[0]
            else if |authArr| < 2 then Raised(ArrayIndexOutOfBounds)  // authArr[1]
            else Credentials(Some(authArr[0]), authArr[1])
  }

  /** A request with none of the three headers is unauthenticated, not malformed;
      and "no token" comes back for no other request. */
  lemma NoHeadersMeansNoToken(headers: RequestHeaders, decode: Base64Decoder)
    ensures Token(headers, decode) == NoToken <==>
      AuthHeader !in headers && UserHeader !in headers && PasswordHeader !in headers
  {
  }

  /** With the basic Base64 decoder, every request that carries the authorization
      header fails: without a space the realm throws its own RuntimeException; with
      the last space past index 1 the substring throws; with it at index 0 the decoder
      rejects the one-character " "; with it at index 1 "" decodes to "", which splits
      to [""], and reading authArr[1] is out of bounds. */
  lemma AuthorizationHeaderAlwaysFails(headers: RequestHeaders, decode: Base64Decoder)
    requires IsBasicBase64Decoder(decode)
    requires AuthHeader in headers
    ensures Token(headers, decode).Raised?
    ensures var k := LastIndexOf(headers[AuthHeader], ' ');
      && (k < 0 ==> Token(headers, decode).error.Runtime?)
      && (k > 1 ==> Token(headers, decode).error == StringIndexOutOfBounds)
      && (k == 0 ==> Token(headers, decode).error == IllegalArgument)
      && (k == 1 ==> Token(headers, decode).error == ArrayIndexOutOfBounds)
  {
    var authStr := headers[AuthHeader];
    var k := LastIndexOf(authStr, ' ');
    if k == 0 {
      assert AuthSegment(authStr) == Success(" ");
      assert |" "| == 1;
      assert decode(" ") == None;
    } else if k == 1 {
      assert AuthSegment(authStr) == Success("");
      assert Split("", ':') == [""];
    }
  }

  /** Without an authorization header, a Password with no colon is the whole secret
      and the User value is the principal, unchanged. */
  lemma PasswordWithoutColonIsWholeSecret(headers: RequestHeaders, decode: Base64Decoder)
    requires AuthHeader !in headers && PasswordHeader in headers
    requires ':' !in headers[PasswordHeader]
    ensures Token(headers, decode) == Credentials(GetHeader(headers, UserHeader), headers[PasswordHeader])
  {
  }

  /** Without an authorization header, a Password with a colon yields as secret
      exactly what follows its first colon: a suffix of the value, possibly empty,
      keeping any later colons. */
  lemma PasswordAfterFirstColon(headers: RequestHeaders, decode: Base64Decoder, prefix: string, secret: string)
    requires AuthHeader !in headers
    requires PasswordHeader in headers && headers[PasswordHeader] == prefix + [':'] + secret
    requires ':' !in prefix
    ensures Token(headers, decode) == Credentials(GetHeader(headers, UserHeader), secret)
  {
    var t := headers[PasswordHeader];
    var s := RetrievePasswordFromToken(Some(t)).value;
    assert t[..|prefix|] == prefix;
    assert ':' in t by { assert t[|prefix|] == ':'; }
    assert s == t[|prefix| + 1..];
  }

  /** A User header without a Password header is a failure, not "no token": the
      missing password reaches retrievePasswordFromToken as null. */
  lemma UserWithoutPasswordFails(headers: RequestHeaders, decode: Base64Decoder)
    requires AuthHeader !in headers && UserHeader in headers && PasswordHeader !in headers
    ensures Token(headers, decode) == Raised(NullPointer)
  {
  }

  /** supports: an `instanceof` test, so true exactly for username/password tokens
      and false for null. */
  function Supports(token: Option<AuthenticationToken>): (r: bool)
    ensures r <==> token.Some? && token.value.UsernamePasswordToken?
  {
    match token
    case None => false
    case Some(t) => t.UsernamePasswordToken?
  }

  /** Whatever `token` extracts is a token this realm supports, and authenticating
      it reaches onResponse. */
  lemma ExtractedTokensAreSupported(headers: RequestHeaders, decode: Base64Decoder)
    ensures Token(headers, decode).Credentials? ==> Supports(Some(Token(headers, decode).AsToken()))
    ensures Token(headers, decode).Credentials? ==> Authenticate(Some(Token(headers, decode).AsToken())).OnResponse?
  {
  }

  /** An x-pack User: a username and its roles. */
  datatype User = User(username: Option<string>, roles: seq<string>)

  /** What the callback form of authenticate does with its listener: call
      onResponse with a user, call onFailure with an exception, or throw before
      either is called. */
  datatype Callback = OnResponse(user: User) | OnFailure(error: Exception) | Escaped(error: Exception)

  /** getGroupsFor: no groups, whatever the credentials. */
  function GroupsFor(accessToken: string): (r: seq<string>)
    ensures r == []
  {
    []
  }

  /** authenticate(token, listener). The cast happens before the try block: a token
      of another kind throws ClassCastException and no callback fires. A null token
      passes the cast and fails inside the try, so onFailure fires. A username/password
      token yields onResponse with its principal and no groups. */
  function Authenticate(token: Option<AuthenticationToken>): (r: Callback)
    ensures r.Escaped? <==> token.Some? && !Supports(token)
    ensures r.Escaped? ==> r.error == ClassCast
    ensures r.OnResponse? <==> Supports(token)
    ensures r.OnResponse? ==> r.user == User(token.value.principal, [])
    ensures r.OnFailure? <==> token.None?
  {
    match token
    case None => OnFailure(NullPointer)
    case Some(OtherToken(_)) => Escaped(ClassCast)
    case Some(UsernamePasswordToken(principal, credentials)) =>
      OnResponse(User(principal, GroupsFor(credentials)))
  }

  /** For every token the realm supports, exactly one of onResponse and onFailure
      fires: onResponse, with the token's principal and no groups. */
  lemma SupportedTokensGetExactlyOneCallback(token: AuthenticationToken)
    requires Supports(Some(token))
    ensures Authenticate(Some(token)) == OnResponse(User(token.principal, []))
    ensures !Authenticate(Some(token)).Escaped? && !Authenticate(Some(token)).OnFailure?
  {
  }

  /** Headers User: u and Password: p, with no authorization header, authenticate
      as user u with no groups. */
  lemma HeadersToUser(headers: RequestHeaders, decode: Base64Decoder)
    requires AuthHeader !in headers && UserHeader in headers && PasswordHeader in headers
    ensures Token(headers, decode).Credentials?
    ensures Authenticate(Some(Token(headers, decode).AsToken())) == OnResponse(User(Some(headers[UserHeader]), []))
  {
  }

  /** The deprecated authenticate(token) always throws UnsupportedOperationException. */
  function AuthenticateDeprecated(token: AuthenticationToken): (r: Result<User, Exception>)
    ensures r.Failure? && r.error == UnsupportedOperation("Deprecated")
  {
    Failure(UnsupportedOperation("Deprecated"))
  }

  /** lookupUser always throws: the realm does no lookup. */
  function LookupUser(username: string): (r: Result<User, Exception>)
    ensures r.Failure? && r.error == Runtime("User Lookup not supported")
  {
    Failure(Runtime("User Lookup not supported"))
  }

  /** userLookupSupported: always false, matching lookupUser. */
  function UserLookupSupported(): (r: bool)
    ensures !r
  {
    false
  }
}
