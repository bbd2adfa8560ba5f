/**
 * The bearer-token dependencies of the HTTP layer: what a route receives
 * (a user, or no user) or the error response it is cut short with.
 */
module AuthDependencies {
  import opened Wrappers
  import opened Exceptions
  import opened Http
  import opened UserEntity
  import ExceptionHandler

  /** What a dependency hands on: a value, an HTTP error it raises, or an exception it lets through. */
  datatype Outcome<T> = Provided(value: T) | Rejected(response: ErrorResponse) | Raised(error: Exception)

  /**
   * `get_current_user`, given what the verify use case returned for the
   * bearer token: the user, 401 when there is none or the token is expired
   * or invalid, and any other exception passed on.
   */
  function GetCurrentUser(verified: Result<Option<User>, Exception>): (r: Outcome<User>)
    ensures verified.Success? && verified.value.Some? <==> r.Provided?
    ensures r.Provided? ==> r.value == verified.value.value
    ensures verified == Success(None) ==> r == Rejected(Challenge(ExceptionHandler.InvalidDetail))
    ensures verified.Failure? && verified.error.Authentication? && verified.error.authError.TokenExpiredError? ==>
      r == Rejected(Challenge(ExceptionHandler.ExpiredDetail))
    ensures verified.Failure? && verified.error.Authentication? && verified.error.authError.TokenInvalidError? ==>
      r == Rejected(Challenge(ExceptionHandler.InvalidDetail))
    ensures verified.Failure? && !IsTokenError(verified.error) ==> r == Raised(verified.error)
    ensures r.Rejected? ==> r.response.status == Unauthorized && r.response.headers == BearerChallenge
  {
    match verified
    case Success(None) => Rejected(Challenge(ExceptionHandler.InvalidDetail))
    case Success(Some(user)) => Provided(user)
    case Failure(e) =>
      if e.Authentication? && e.authError.TokenExpiredError? then Rejected(Challenge(ExceptionHandler.ExpiredDetail))
      else if e.Authentication? && e.authError.TokenInvalidError? then Rejected(Challenge(ExceptionHandler.InvalidDetail))
      else Raised(e)
  }

  /** For a token error the dependency answers exactly as the application's authentication handler would. */
  lemma CurrentUserAgreesWithHandler(e: Exception)
    requires IsTokenError(e)
    ensures GetCurrentUser(Failure(e)) == Rejected(ExceptionHandler.AuthExceptionHandler(e.authError))
  {
  }

  /**
   * `get_optional_current_user`: no user when no credentials were sent or
   * when the token is expired or invalid; otherwise what verification
   * returned. `verified` is that result, and is not looked at without credentials.
   */
  function GetOptionalCurrentUser(hasCredentials: bool, verified: Result<Option<User>, Exception>): (r: Result<Option<User>, Exception>)
    ensures !hasCredentials ==> r == Success(None)
    ensures hasCredentials && verified.Failure? && IsTokenError(verified.error) ==> r == Success(None)
    ensures hasCredentials && (verified.Success? || !IsTokenError(verified.error)) ==> r == verified
  {
    if !hasCredentials then Success(None)
    else if verified.Failure? && IsTokenError(verified.error) then Success(None)
    else verified
  }

  /** The optional dependency yields a user exactly when the strict one would accept the same credentials. */
  lemma OptionalAgreesWithStrict(verified: Result<Option<User>, Exception>, user: User)
    ensures GetOptionalCurrentUser(true, verified) == Success(Some(user)) <==> GetCurrentUser(verified) == Provided(user)
  {
  }

  /** `get_admin_user`: the current user when an administrator, 403 otherwise; failures of `get_current_user` pass through. */
  function GetAdminUser(current: Outcome<User>): (r: Outcome<User>)
    ensures r.Provided? <==> current.Provided? && current.value.isAdmin
    ensures r.Provided? ==> r.value == current.value
    ensures current.Provided? && !current.value.isAdmin ==> r == Rejected(ErrorResponse(Forbidden, ExceptionHandler.PermissionsDefault, map[]))
    ensures !current.Provided? ==> r == current
  {
    match current
    case Provided(user) =>
      if !user.isAdmin then Rejected(ErrorResponse(Forbidden, ExceptionHandler.PermissionsDefault, map[]))
      else current
    case _ => current
  }
}
