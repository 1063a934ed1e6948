/** The structured error an OAuth2 provider returns with a failed userinfo request:
    an error code (one of those of section 5.2 of RFC 6749 — invalid_request,
    invalid_client, invalid_grant, unauthorized_client, unsupported_grant_type,
    invalid_scope — or an extension code as section 8.5 of RFC 6749 allows), an
    optional human-readable description and an optional URI. */
module ErrorResponse {
  import opened Java

  /** The three fields of an error response, as a value. */
  datatype ErrorFields = ErrorFields(error: Option<string>, errorDescription: Option<string>, errorUri: Option<string>)

  /** The mutable JSON error response object; each setter returns the same instance. */
  class UserInfoErrorResponse {
    var error: Option<string>
    var errorDescription: Option<string>
    var errorUri: Option<string>

    /** A fresh response has every field null, as the JSON parser finds it. */
    constructor ()
      ensures Fields() == ErrorFields(None, None, None)
    {
      error, errorDescription, errorUri := None, None, None;
    }

    /** The current field values. */
    function Fields(): ErrorFields
      reads this
    {
      ErrorFields(error, errorDescription, errorUri)
    }

    function GetError(): Option<string>
      reads this
    {
      error
    }

    function GetErrorDescription(): Option<string>
      reads this
    {
      errorDescription
    }

    function GetErrorUri(): Option<string>
      reads this
    {
      errorUri
    }

    /** setError rejects null (checkNotNull) and then leaves the object as it was;
        any non-null code, standard or extension, is stored. */
    method SetError(value: Option<string>) returns (r: Result<UserInfoErrorResponse, Exception>)
      modifies this`error
      ensures value.None? ==> r == Failure(NullPointer) && Fields() == old(Fields())
      ensures value.Some? ==> r == Success(this) && GetError() == value
      ensures value.Some? ==> Fields() == old(Fields()).(error := value)
    {
      if value.None? {
        return Failure(NullPointer);
      }
      error := value;
      r := Success(this);
    }

    /** Accepts null; only the description changes. */
    method SetErrorDescription(value: Option<string>) returns (r: UserInfoErrorResponse)
      modifies this`errorDescription
      ensures r == this && GetErrorDescription() == value
      ensures Fields() == old(Fields()).(errorDescription := value)
    {
      errorDescription := value;
      r := this;
    }

    /** Accepts null; only the URI changes. */
    method SetErrorUri(value: Option<string>) returns (r: UserInfoErrorResponse)
      modifies this`errorUri
      ensures r == this && GetErrorUri() == value
      ensures Fields() == old(Fields()).(errorUri := value)
    {
      errorUri := value;
      r := this;
    }
  }
}
