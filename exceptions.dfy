/**
 * The exceptions that the modelled code raises or catches. `AuthenticationError`
 * and `AuthorizationError` are the application's own hierarchy; the others are
 * the library exceptions that reach the modelled code.
 */
module Exceptions {

  /** `AuthenticationError` raised directly, and its three subclasses. */
  datatype AuthenticationError =
    | AuthenticationFailed(message: string)
    | InvalidCredentialsError(message: string)
    | TokenInvalidError(message: string)
    | TokenExpiredError(message: string)

  datatype AuthorizationError = AuthorizationError(message: string)

  datatype Exception =
    | Authentication(authError: AuthenticationError)
    | Authorization(authzError: AuthorizationError)
    /** `ValueError`, also standing for its subclasses `json.JSONDecodeError` and pydantic's `ValidationError`. */
    | ValueError(message: string)
    /** `bson.errors.InvalidId`, raised by `ObjectId(text)`. */
    | InvalidId(message: string)
    /** `pymongo.errors.DuplicateKeyError`, raised when an insert reuses an `_id`. */
    | DuplicateKeyError(message: string)
    /** `TypeError`, raised by `int()` on a claim that is neither a number nor a text. */
    | TypeError(message: string)

  function TokenInvalid(message: string): Exception { Authentication(TokenInvalidError(message)) }

  function TokenExpired(message: string): Exception { Authentication(TokenExpiredError(message)) }

  function InvalidCredentials(message: string): Exception { Authentication(InvalidCredentialsError(message)) }

  /** The two token errors that the bearer-token dependencies catch. */
  predicate IsTokenError(e: Exception) {
    e.Authentication? && (e.authError.TokenInvalidError? || e.authError.TokenExpiredError?)
  }
}
