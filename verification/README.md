# OAuth2 custom realm and userinfo client, modelled in Dafny

This project models the decision logic of a custom authentication realm for an
Elasticsearch/X-Pack security layer, and of the small OAuth2 "userinfo" client the
realm ships with.

- **Realm** (`custom_realm.dfy`) covers the following:
  - extracting a username/password token from the request headers: the
    `authorization` header, or the `User`/`Password` pair;
  - `supports`;
  - both forms of `authenticate`;
  - `lookupUser` and `userLookupSupported`.
- **Request** (`user_info_request.dfy`) is the mutable `UserInfoRequest`. It has
  fluent setters, construction-time checks, and the interceptor wrapping that makes
  client authentication act last. It also splits `executeUnparsed`/`execute` on the
  response status.
- **ResponseException** (`user_info_response_exception.dfy`) holds
  `UserInfoResponseException.from`. It decides between structured error details and
  the raw body, then composes the exception's message and content.
- **ErrorResponse** and **UserInfo** (`user_info_error_response.dfy`,
  `user_info_response.dfy`) are the data-holder classes. Each setter frames one
  field.
- **Java** and **Http** (`java.dfy`, `http.dfy`) support the rest:
  - Java's `indexOf`, `lastIndexOf`, `substring`, `split` and the space joiner,
    written out;
  - an abstract HTTP response record;
  - the library routines left uninterpreted: media-type comparison, message buffer,
    pretty printing, line separator.

Java `null` is `Option.None`. A thrown exception is a `Result.Failure`, or
`Extraction.Raised` / `Callback.Escaped` in the realm.

The code takes the `authorization` header's payload as
`authStr.substring(authStr.lastIndexOf(" "), 1)`. It does not decode the whole
segment after the last space, which would be the evident intent for a Basic-style
header. The model follows the code as written. Under Java's `substring(begin, end)` rules, that call throws
whenever the last space is past index 1. Otherwise it yields `" "` or `""`. Java's
basic Base64 decoder rejects a one-character input and decodes `""` to `""`.
`"".split(":")` is `[""]`, so reading `authArr[1]` fails. Given those facts,
`AuthorizationHeaderAlwaysFails` proves that no request carrying the
`authorization` header ever yields a token. Only the `User`/`Password` path can
authenticate.

## Model

| member | source | states |
|---|---|---|
| `Java.IndexOf` | src/main/java/com/github/r351574nc3/realm/CustomRealm.java:176-179 | `indexOf(":")`: -1 exactly when the character is absent, otherwise the position of its first occurrence |
| `Java.LastIndexOf` | src/main/java/com/github/r351574nc3/realm/CustomRealm.java:146-150 | `lastIndexOf(" ")`: -1 exactly when absent, otherwise a position holding the character with none after it |
| `Java.Substring` | src/main/java/com/github/r351574nc3/realm/CustomRealm.java:150 | `substring(begin, end)` succeeds exactly when `0 <= begin <= end <= length` and otherwise throws StringIndexOutOfBoundsException |
| `Java.Split` | src/main/java/com/github/r351574nc3/realm/CustomRealm.java:151 | `split(":")`: a string without a colon comes back whole (so `""` gives `[""]`); no part contains the separator; trailing empty parts are dropped |
| `Java.Join` | src/main/java/com/github/r351574nc3/userinfo/UserInfoRequest.java:173 | `Joiner.on(' ').join`: no parts give `""`; otherwise the first part leads the result, and `PiecesOfJoin` shows the parts come back in order |
| `Java.PiecesOfJoin` | src/main/java/com/github/r351574nc3/userinfo/UserInfoRequest.java:173 | for a non-empty list of parts none of which contains the separator, `Pieces` of the join (a split that keeps trailing empty parts, unlike Java's `split`) gives the parts back in order |
| `Realm.RetrievePasswordFromToken` | src/main/java/com/github/r351574nc3/realm/CustomRealm.java:175-180 | null throws NullPointerException; no colon gives the whole value; otherwise the result is the suffix after the first colon: shorter than the input, possibly empty, later colons kept |
| `Realm.UsernamePasswordFromHeaders` | src/main/java/com/github/r351574nc3/realm/CustomRealm.java:163-173 | no token exactly when both `User` and `Password` are absent; `User` without `Password` throws NullPointerException; with `Password`, the principal is the `User` value (possibly null) |
| `Realm.AuthSegment` | src/main/java/com/github/r351574nc3/realm/CustomRealm.java:150 | the segment handed to the decoder throws exactly when the last space is past index 1; otherwise it has at most one character: `" "` when the last space is at 0, `""` when it is at 1 |
| `Realm.Token` | src/main/java/com/github/r351574nc3/realm/CustomRealm.java:132-156 | without `authorization` it is `usernamePasswordToken`; with it, never "no token"; a header without a space throws the realm's RuntimeException naming the header |
| `Realm.NoHeadersMeansNoToken` | src/main/java/com/github/r351574nc3/realm/CustomRealm.java:139-166 | `token` returns no token if and only if none of `authorization`, `User`, `Password` is present |
| `Realm.AuthorizationHeaderAlwaysFails` | src/main/java/com/github/r351574nc3/realm/CustomRealm.java:146-153 | with Java's basic Base64 decoder, a present `authorization` header always ends in an exception, and the case split on the last space's position says which one |
| `Realm.PasswordWithoutColonIsWholeSecret` | src/main/java/com/github/r351574nc3/realm/CustomRealm.java:168-178 | with no `authorization` header and a colon-free `Password`, the token is the `User` value with the whole `Password` value as secret |
| `Realm.PasswordAfterFirstColon` | src/main/java/com/github/r351574nc3/realm/CustomRealm.java:179 | for `Password` = prefix `:` rest with a colon-free prefix, the secret is exactly rest |
| `Realm.UserWithoutPasswordFails` | src/main/java/com/github/r351574nc3/realm/CustomRealm.java:164-176 | `User` present and `Password` absent fails with NullPointerException, not "no token" |
| `Realm.Supports` | src/main/java/com/github/r351574nc3/realm/CustomRealm.java:119-122 | an `instanceof` test: true exactly for a non-null username/password token, false for null and for any other kind |
| `Realm.ExtractedTokensAreSupported` | src/main/java/com/github/r351574nc3/realm/CustomRealm.java:155 | every token `token` extracts is one `supports` accepts, and `authenticate` answers it with onResponse; this holds by construction, since `token` only ever builds a username/password token |
| `Realm.GroupsFor` | src/main/java/com/github/r351574nc3/realm/CustomRealm.java:207-213 | `getGroupsFor` yields no groups, whatever the access token |
| `Realm.Authenticate` | src/main/java/com/github/r351574nc3/realm/CustomRealm.java:197-213 | a token of another kind escapes as ClassCastException with no callback; null calls onFailure; a username/password token calls onResponse with its principal and the empty group list of `getGroupsFor` |
| `Realm.SupportedTokensGetExactlyOneCallback` | src/main/java/com/github/r351574nc3/realm/CustomRealm.java:197-205 | for a supported token exactly one callback fires, onResponse, with the token's principal and no groups |
| `Realm.HeadersToUser` | src/main/java/com/github/r351574nc3/realm/CustomRealm.java:163-200 | `User: u` and `Password: p` without `authorization` authenticate as user u with no groups |
| `Realm.AuthenticateDeprecated` | src/main/java/com/github/r351574nc3/realm/CustomRealm.java:182-186 | always throws UnsupportedOperationException("Deprecated") |
| `Realm.LookupUser` | src/main/java/com/github/r351574nc3/realm/CustomRealm.java:240-242 | always throws; never returns a user |
| `Realm.UserLookupSupported` | src/main/java/com/github/r351574nc3/realm/CustomRealm.java:250-252 | always false |
| `Request.UserInfoRequest.Create` | src/main/java/com/github/r351574nc3/userinfo/UserInfoRequest.java:65-68 | fails exactly for a null transport, JSON factory or URL (NullPointerException) or a URL with a fragment (IllegalArgumentException); otherwise a fresh request holding the URL and nothing else |
| `Request.UserInfoRequest.Init` | src/main/java/com/github/r351574nc3/userinfo/UserInfoRequest.java:65-69 | stores transport and factory and sets the URL through `setServerUrl` |
| `Request.UserInfoRequest.SetRequestInitializer` | src/main/java/com/github/r351574nc3/userinfo/UserInfoRequest.java:94-97 | only the initializer changes, to the value given (null allowed); returns this |
| `Request.UserInfoRequest.SetClientAuthentication` | src/main/java/com/github/r351574nc3/userinfo/UserInfoRequest.java:125-128 | only the client authentication changes, to the value given (null allowed); returns this |
| `Request.UserInfoRequest.SetServerUrl` | src/main/java/com/github/r351574nc3/userinfo/UserInfoRequest.java:143-147 | the URL is stored even when it is then rejected: null throws NullPointerException, a fragment IllegalArgumentException; nothing else changes |
| `Request.UserInfoRequest.SetScopes` | src/main/java/com/github/r351574nc3/userinfo/UserInfoRequest.java:172-175 | null stores null; otherwise the scopes joined by single spaces in order; only the scope field changes; returns this |
| `Request.ScopeParameterListsScopes` | src/main/java/com/github/r351574nc3/userinfo/UserInfoRequest.java:172-174 | for a non-empty list of scopes none of which contains a space, the stored scope parameter, split on spaces, lists the scopes in order (section 3.3 of RFC 6749); a single value holding several space-separated scopes, which the setter also accepts, is stored as given and not covered by this lemma |
| `Request.HttpRequest.Initialize` | src/main/java/com/github/r351574nc3/userinfo/UserInfoRequest.java:207-210 | an initializer that throws IOException leaves the request unchanged; otherwise it may install an interceptor, and the request's interceptor is kept when it does not |
| `Request.HttpRequest.Intercept` | src/main/java/com/github/r351574nc3/userinfo/UserInfoRequest.java:231 | executing the request runs its interceptor once: its actions are appended to the trace, or it throws IOException and the trace is untouched |
| `Request.UserInfoRequest.InitializeRequest` | src/main/java/com/github/r351574nc3/userinfo/UserInfoRequest.java:207-224 | an IOException from the request initializer stops initialization before the wrapper is installed; otherwise the request's interceptor is a wrapper around whatever interceptor is then present, with client authentication placed after it |
| `Request.UserInfoRequest.Prepared` | src/main/java/com/github/r351574nc3/userinfo/UserInfoRequest.java:203-231 | the prepared request fails with IOException exactly when the request initializer, the installed interceptor or client authentication throws; otherwise it carries the URL and scope parameter, and its trace is the installed interceptor's actions followed by client authentication's |
| `Request.UserInfoRequest.UnparsedOutcome` | src/main/java/com/github/r351574nc3/userinfo/UserInfoRequest.java:203-237 | a response is returned exactly for a 2xx status; any other status throws exactly the exception `from` builds from that response, with its status, message, headers and details; an IOException from preparing or sending the request propagates, and when preparation fails nothing is sent |
| `Request.UserInfoRequest.ExecuteUnparsed` | src/main/java/com/github/r351574nc3/userinfo/UserInfoRequest.java:203-238 | the method that builds, initializes, intercepts and sends the request returns or throws exactly what `UnparsedOutcome` describes |
| `Request.ClientAuthenticationRunsLast` | src/main/java/com/github/r351574nc3/userinfo/UserInfoRequest.java:212-222 | when the existing interceptor throws, client authentication never runs; otherwise an action-type client authentication adds exactly one action, after everything the existing interceptor did |
| `Request.UserInfoRequest.Execute` | src/main/java/com/github/r351574nc3/userinfo/UserInfoRequest.java:253-258 | a 2xx response whose body parses as claims returns those claims; claims are returned only for such a response; an IOException from parsing and every failure of `executeUnparsed` pass through unchanged |
| `ResponseException.NewException` | src/main/java/com/github/r351574nc3/userinfo/UserInfoResponseException.java:32-40 | the exception holds the builder's status, message, headers and content, and `getDetails` returns exactly the details given |
| `ResponseException.ExtractDetails` | src/main/java/com/github/r351574nc3/userinfo/UserInfoResponseException.java:60-75 | details are present exactly in the JSON-error case with a successful parse, and then the detail string is their pretty form; outside that case the detail string is the raw body; an IOException from reading or parsing the body leaves both null, while one from `toPrettyString` keeps the details with a null detail string |
| `ResponseException.From` | src/main/java/com/github/r351574nc3/userinfo/UserInfoResponseException.java:55-83 | fails only for a null JSON factory; otherwise it keeps the status and headers; the message is the base message plus a line separator and the detail string only when that string is non-null and non-empty, and only then is content set |
| `ResponseException.DetailsOnlyForJsonErrors` | src/main/java/com/github/r351574nc3/userinfo/UserInfoResponseException.java:64-68 | non-null details imply a non-success status, a content type, content present, and a JSON media type |
| `ResponseException.RawBodyFallback` | src/main/java/com/github/r351574nc3/userinfo/UserInfoResponseException.java:69-81 | outside the JSON-error case, when `getContent()` does not throw, details stay null and a non-empty raw body becomes the content and the message's tail |
| `ResponseException.IoErrorsAreSwallowed` | src/main/java/com/github/r351574nc3/userinfo/UserInfoResponseException.java:63-83 | an IOException anywhere in detail extraction (`getContent`, the JSON parse, `toPrettyString` or `parseAsString`) still yields an exception, with the bare message, no content and the original status |
| `ResponseException.InvalidGrantIsStructured` | src/main/java/com/github/r351574nc3/userinfo/UserInfoResponseException.java:64-68 | a 400 JSON response whose body parses to error `invalid_grant` gives details with that error code |
| `ErrorResponse.UserInfoErrorResponse.SetError` | src/main/java/com/github/r351574nc3/userinfo/UserInfoErrorResponse.java:44-57 | null throws NullPointerException and nothing changes; otherwise `getError` returns the code afterwards, only that field changes, and this is returned |
| `ErrorResponse.UserInfoErrorResponse.SetErrorDescription` | src/main/java/com/github/r351574nc3/userinfo/UserInfoErrorResponse.java:63-79 | accepts null; the getter returns the value set; only that field changes; returns this |
| `ErrorResponse.UserInfoErrorResponse.SetErrorUri` | src/main/java/com/github/r351574nc3/userinfo/UserInfoErrorResponse.java:86-103 | accepts null; the getter returns the value set; only that field changes; returns this |
| `UserInfo.UserInfoResponse.SetEmail` | src/main/java/com/github/r351574nc3/userinfo/UserInfoResponse.java:35-41 | the getter returns the value stored; only that field changes |
| `UserInfo.UserInfoResponse.SetGroups` | src/main/java/com/github/r351574nc3/userinfo/UserInfoResponse.java:43-49 | the getter returns the one groups string unchanged, with no splitting; only that field changes |
| `UserInfo.UserInfoResponse.SetName` | src/main/java/com/github/r351574nc3/userinfo/UserInfoResponse.java:51-57 | the getter returns the value stored; only that field changes |
| `UserInfo.UserInfoResponse.SetSub` | src/main/java/com/github/r351574nc3/userinfo/UserInfoResponse.java:59-65 | the getter returns the value stored; only that field changes |
| `UserInfo.UserInfoResponse.SetUsername` | src/main/java/com/github/r351574nc3/userinfo/UserInfoResponse.java:67-73 | the getter returns the value stored; only that field changes |
| `UserInfo.UserInfoResponse.SetTenant` | src/main/java/com/github/r351574nc3/userinfo/UserInfoResponse.java:75-81 | the zero-argument `setTenant()` then returns the value given, null included; only that field changes |

## Left out

- Static configuration and `requestUserInfo` (CustomRealm.java:79-91, 215-231) are left out. They read environment variables, use `AccessController` privileged blocks and build a real network transport.
- Logging is left out (for example CustomRealm.java:135-137, UserInfoRequest.java:218, 230, 235-236). It has no effect on behaviour.
- The realm constructors are left out: they only register the realm type with the host.
- The getters for the transport, JSON factory, initializer, client authentication, server URL and scopes are not modelled as members. The four mutable fields are read through the `Current()` settings value; the transport and JSON factory are `const` fields read directly. The data holders' getters are functions whose values the setters' contracts pin down.
- HTTP execution is left out. The transport is a parameter (`HttpTransport.send`). The request factory, `buildPostRequest`, `UrlEncodedContent` and the JSON parser are reduced to the facts the client reads: URL, scope parameter, interceptor trace, and the parse outcomes recorded on the response.
- Request.UserInfoRequest.ExecuteUnparsed: the library effect of `setThrowExceptionOnExecuteError(true)` (UserInfoRequest.java:229) is not modelled. With that flag set, the HTTP library's `HttpRequest.execute()` throws `HttpResponseException`, which is an IOException, for every non-2xx response, before `isSuccessStatusCode()` is tested at line 232. In the running program `from` (line 237) is therefore unreachable from `executeUnparsed`: a provider's rejection surfaces as a plain IOException, never as `UserInfoResponseException`. The library code is not part of this model, so the `Rejected` branch of `UnparsedOutcome` models lines 232-237 as written, as if the flag were false.
- The library routines' code is left out: `HttpMediaType.equalsIgnoreParameters`, `computeMessageBuffer`, `toPrettyString`, `parseAsString`, JSON parsing and the platform line separator. They are parameters (`Library`) or outcomes recorded on the response.
- Only IOException is modelled among library exceptions. A library routine throwing an unchecked exception inside `from` is not modelled.
- Base64 decoding is a parameter `string -> Option<string>`. The only facts assumed are the two in `IsBasicBase64Decoder`: `""` decodes to `""`, and one character is rejected. Charset decoding of the bytes is folded into it.
- The X-Pack `UsernamePasswordToken` and `User` constructors are not part of this model. They are taken to store what they are given, including a null username.
- Realm.Authenticate: a listener whose `onResponse` itself throws would also have `onFailure` called. Listener code is not part of this model, so the model assumes listeners do not throw.
- Realm.Authenticate: asynchronous delivery through `ActionListener` is modelled as a returned `Callback` value. The code itself has no concurrency.
- `clone` and the `GenericData.set` overrides only delegate to library code, so they are left out.
- Request.UserInfoRequest.ExecuteUnparsed: the wrapper interceptor reads `clientAuthentication` when it runs, not when it is installed. Both happen within one `executeUnparsed` call, so the model captures the value once.
- Realm.AuthorizationHeaderAlwaysFails: Java's `lastIndexOf` and `substring` count UTF-16 code units, while a Dafny `string` counts Unicode scalar values. For a header holding a character outside the Basic Multilingual Plane before its last space (for example `"\u{1F600} x"`), Java's index is larger than the model's, so the model can name ArrayIndexOutOfBoundsException where Java throws StringIndexOutOfBoundsException. That an exception is raised still holds. `Java.LastIndexOf` and `Java.Substring` share this limit.
- Request.UserInfoRequest.Prepared: an initializer or interceptor that changes the request and then throws is modelled as throwing before any change. The request is not sent in either case.
- Joining `null` scope elements (which the joiner rejects) is not modelled: scopes are a `seq<string>`.
