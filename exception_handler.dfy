/** The application's handlers that turn authentication and authorization errors into responses. */
module ExceptionHandler {
  import opened Exceptions
  import opened Http

  const ExpiredDetail: string := "Token has expired"
  const InvalidDetail: string := "Could not validate credentials"
  const CredentialsDefault: string := "Invalid credentials"
  const GenericDetail: string := "Authentication required"
  const PermissionsDefault: string := "Not enough permissions"

  /**
   * `auth_exception_handler`: always 401 with the bearer challenge; the
   * detail depends only on the kind of error, except that a credentials
   * error shows its own message when it has one.
   */
  function AuthExceptionHandler(e: AuthenticationError): (r: ErrorResponse)
    ensures r.status == Unauthorized && r.headers == BearerChallenge && r.detail != ""
    ensures e.TokenExpiredError? ==> r.detail == ExpiredDetail
    ensures !e.InvalidCredentialsError? ==> (r.detail == ExpiredDetail <==> e.TokenExpiredError?)
    ensures e.TokenInvalidError? ==> r.detail == InvalidDetail
    ensures e.InvalidCredentialsError? ==> r.detail == (if e.message != "" then e.message else CredentialsDefault)
    ensures e.AuthenticationFailed? ==> r.detail == GenericDetail
  {
    match e
    case TokenExpiredError(_) => Challenge(ExpiredDetail)
    case TokenInvalidError(_) => Challenge(InvalidDetail)
    case InvalidCredentialsError(m) => Challenge(if m != "" then m else CredentialsDefault)
    case AuthenticationFailed(_) => Challenge(GenericDetail)
  }

  /** Token errors never leak their messages: any two of the same kind give the same response. */
  lemma TokenMessagesHidden(a: AuthenticationError, b: AuthenticationError)
    requires (a.TokenInvalidError? && b.TokenInvalidError?) || (a.TokenExpiredError? && b.TokenExpiredError?)
      || (a.AuthenticationFailed? && b.AuthenticationFailed?)
    ensures AuthExceptionHandler(a) == AuthExceptionHandler(b)
  {
  }

  /** `authorization_exception_handler`: 403 with the error's message, or the default one; no headers. */
  function AuthorizationExceptionHandler(e: AuthorizationError): (r: ErrorResponse)
    ensures r.status == Forbidden && r.headers == map[] && r.detail != ""
    ensures e.message != "" ==> r.detail == e.message
    ensures e.message == "" ==> r.detail == PermissionsDefault
  {
    ErrorResponse(Forbidden, if e.message != "" then e.message else PermissionsDefault, map[])
  }
}
