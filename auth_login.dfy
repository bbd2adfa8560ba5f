/** `AuthLoginUseCase`: email and password in, a token pair out. */
module AuthLogin {
  import opened Wrappers
  import opened Exceptions
  import opened JwtService
  import Config
  import opened UserEntity
  import opened UserRepository

  const BadCredentials: string := "Invalid email or password"
  const InactiveAccount: string := "User account is inactive"

  /** `LoginResult`: the two tokens and the authenticated user. */
  datatype LoginResult = LoginResult(accessToken: Token, refreshToken: Token, user: User)

  /** `token_data` of a login: the user's id as `sub` and their admin flag, nothing else. */
  function LoginClaims(user: User): (c: Claims)
    ensures c.Keys == {"sub", "is_admin"} && "session_id" !in c
    ensures c["sub"] == OptionalStr(user.id) && c["is_admin"] == Bool(user.isAdmin)
  {
    map["sub" := OptionalStr(user.id), "is_admin" := Bool(user.isAdmin)]
  }

  /**
   * `execute(email, password)`: an unknown email and a wrong password get
   * the same message; an inactive account is reported, and before the
   * password is looked at. `verifyPassword(plain, hash)` is the password
   * service's check.
   */
  function Execute(users: UserRepositoryImpl, cfg: Config.Settings, verifyPassword: (string, string) -> bool,
                   email: string, password: string, now: int): (r: Result<LoginResult, Exception>)
    reads users
    ensures users.GetByEmail(email).None? ==> r == Failure(InvalidCredentials(BadCredentials))
    ensures users.GetByEmail(email).Some? && !users.GetByEmail(email).value.isActive ==>
      r == Failure(InvalidCredentials(InactiveAccount))
    ensures users.GetByEmail(email).Some? && users.GetByEmail(email).value.isActive
      && !verifyPassword(password, users.GetByEmail(email).value.passwordHash)
      ==> r == Failure(InvalidCredentials(BadCredentials))
    ensures r.Failure? ==> r.error.Authentication? && r.error.authError.InvalidCredentialsError?
    ensures r.Success? ==>
      && users.GetByEmail(email) == Some(r.value.user)
      && r.value.user.isActive && verifyPassword(password, r.value.user.passwordHash)
      && r.value.accessToken == CreateAccessToken(LoginClaims(r.value.user), None, cfg, now)
      && r.value.refreshToken == CreateRefreshToken(LoginClaims(r.value.user), cfg, now)
  {
    match users.GetByEmail(email)
    case None => Failure(InvalidCredentials(BadCredentials))
    case Some(user) =>
      if !user.isActive then Failure(InvalidCredentials(InactiveAccount))
      else if !verifyPassword(password, user.passwordHash) then Failure(InvalidCredentials(BadCredentials))
      else
        var tokenData := LoginClaims(user);
        Success(LoginResult(CreateAccessToken(tokenData, None, cfg, now), CreateRefreshToken(tokenData, cfg, now), user))
  }

  /** Both tokens of a login carry exactly the user's id and admin flag besides the registered claims; neither names a session. */
  lemma LoginTokenClaims(users: UserRepositoryImpl, cfg: Config.Settings, verifyPassword: (string, string) -> bool,
                         email: string, password: string, now: int)
    requires Execute(users, cfg, verifyPassword, email, password, now).Success?
    ensures var r := Execute(users, cfg, verifyPassword, email, password, now).value;
      && r.accessToken.Signed? && r.refreshToken.Signed?
      && r.accessToken.claims.Keys == {"sub", "is_admin", "exp", "iat"}
      && r.refreshToken.claims.Keys == {"sub", "is_admin", "exp", "iat", "type"}
      && r.accessToken.claims["sub"] == r.refreshToken.claims["sub"] == OptionalStr(r.user.id)
      && r.accessToken.claims["is_admin"] == r.refreshToken.claims["is_admin"] == Bool(r.user.isAdmin)
  {
  }
}
