/** `AuthVerifyUseCase`: from a bearer token to the active user it names. */
module AuthVerify {
  import opened Wrappers
  import opened Exceptions
  import opened JwtService
  import Config
  import opened UserEntity
  import opened UserRepository

  const MissingUserId: string := "Token missing user ID"
  const UserNotFoundMessage: string := "User not found"
  const InactiveMessage: string := "User account is inactive"

  /**
   * `execute`: the token must decode (its errors pass through unchanged),
   * carry a truthy `sub`, and name a stored user whose account is active.
   * It never returns `None`, although its signature allows it.
   */
  function Execute(users: UserRepositoryImpl, cfg: Config.Settings, token: Token, now: int): (r: Result<Option<User>, Exception>)
    reads users
    ensures DecodeToken(token, cfg, now).Failure? ==> r == Failure(DecodeToken(token, cfg, now).error)
    ensures r.Failure? ==> IsTokenError(r.error) || r.error.TypeError?
    ensures DecodeToken(token, cfg, now).Success? && !ClaimTruthy(DecodeToken(token, cfg, now).value, "sub") ==>
      r == Failure(TokenInvalid(MissingUserId))
    ensures DecodeToken(token, cfg, now).Success? && ClaimTruthy(DecodeToken(token, cfg, now).value, "sub") ==>
      var found := users.GetById(DecodeToken(token, cfg, now).value["sub"].s);
      && (found.None? ==> r == Failure(TokenInvalid(UserNotFoundMessage)))
      && (found.Some? && !found.value.isActive ==> r == Failure(TokenInvalid(InactiveMessage)))
    ensures r.Success? ==> r.value.Some?
    ensures r.Success? ==>
      var c := DecodeToken(token, cfg, now).value;
      && DecodeToken(token, cfg, now).Success? && ClaimTruthy(c, "sub")
      && users.GetById(c["sub"].s) == Some(r.value.value)
      && r.value.value.isActive
  {
    var payload :- DecodeToken(token, cfg, now);
    if !ClaimTruthy(payload, "sub") then Failure(TokenInvalid(MissingUserId))
    else
      var userId := payload["sub"].s;
      match users.GetById(userId)
      case None => Failure(TokenInvalid(UserNotFoundMessage))
      case Some(user) =>
        if !user.isActive then Failure(TokenInvalid(InactiveMessage))
        else Success(Some(user))
  }
}
