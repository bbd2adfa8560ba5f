/** How the tokens minted by one use case fare in the others. */
module AuthFlows {
  import opened Wrappers
  import opened Exceptions
  import opened JwtService
  import Config
  import opened UserEntity
  import opened UserMapper
  import opened UserRepository
  import AuthVerify
  import AuthLogin
  import AuthRefresh

  /** A user that login can return is found again by its id. */
  lemma LoggedInUserFoundById(users: UserRepositoryImpl, cfg: Config.Settings, verifyPassword: (string, string) -> bool,
                              email: string, password: string, now: int)
    requires users.Valid()
    requires AuthLogin.Execute(users, cfg, verifyPassword, email, password, now).Success?
    ensures var u := AuthLogin.Execute(users, cfg, verifyPassword, email, password, now).value.user;
      u.id.Some? && u.id.value != "" && users.GetById(u.id.value) == Some(u)
  {
    var u := AuthLogin.Execute(users, cfg, verifyPassword, email, password, now).value.user;
    var j :| 0 <= j < |users.docs| && u == ToDomain(users.docs[j]);
    StoredFoundById(users, j);
  }

  /** The access token of a login lets its user in until the end of the token's `exp` second, and is reported expired after. */
  lemma LoginAccessTokenVerifies(users: UserRepositoryImpl, cfg: Config.Settings, verifyPassword: (string, string) -> bool,
                                 email: string, password: string, now: int, later: int)
    requires users.Valid()
    requires AuthLogin.Execute(users, cfg, verifyPassword, email, password, now).Success?
    ensures var login := AuthLogin.Execute(users, cfg, verifyPassword, email, password, now).value;
      var exp := EpochSeconds(now + cfg.accessTokenExpireSeconds * Config.MicrosPerSecond);
      AuthVerify.Execute(users, cfg, login.accessToken, later) ==
        if EpochSeconds(later) <= exp then Success(Some(login.user)) else Failure(TokenExpired(ExpiredMessage))
  {
    var login := AuthLogin.Execute(users, cfg, verifyPassword, email, password, now).value;
    LoggedInUserFoundById(users, cfg, verifyPassword, email, password, now);
    AccessTokenRoundTrip(AuthLogin.LoginClaims(login.user), None, cfg, now, later);
  }

  /**
   * Login binds no session, so its refresh token is refused by refresh
   * with "Token missing session ID" for as long as it has not expired.
   */
  lemma LoginRefreshTokenRefused(users: UserRepositoryImpl, cfg: Config.Settings, verifyPassword: (string, string) -> bool,
                                 email: string, password: string, now: int, later: int)
    requires users.Valid()
    requires AuthLogin.Execute(users, cfg, verifyPassword, email, password, now).Success?
    requires EpochSeconds(later) <= EpochSeconds(now + cfg.refreshTokenExpireSeconds * Config.MicrosPerSecond)
    ensures var login := AuthLogin.Execute(users, cfg, verifyPassword, email, password, now).value;
      AuthRefresh.CheckClaimant(users, cfg, login.refreshToken, later) == Failure(TokenInvalid(AuthRefresh.MissingSessionId))
  {
    var login := AuthLogin.Execute(users, cfg, verifyPassword, email, password, now).value;
    LoggedInUserFoundById(users, cfg, verifyPassword, email, password, now);
    SessionlessRefreshRefused(users, cfg, login.user, now, later);
  }

  /** A refresh token made from login's claims for a user with an id lacks `session_id`. */
  lemma SessionlessRefreshRefused(users: UserRepositoryImpl, cfg: Config.Settings, user: User, now: int, later: int)
    requires user.id.Some? && user.id.value != ""
    requires EpochSeconds(later) <= EpochSeconds(now + cfg.refreshTokenExpireSeconds * Config.MicrosPerSecond)
    ensures AuthRefresh.CheckClaimant(users, cfg, CreateRefreshToken(AuthLogin.LoginClaims(user), cfg, now), later)
      == Failure(TokenInvalid(AuthRefresh.MissingSessionId))
  {
    var t := CreateRefreshToken(AuthLogin.LoginClaims(user), cfg, now);
    RefreshTokenRoundTrip(AuthLogin.LoginClaims(user), cfg, now, later);
    assert VerifyRefreshToken(t, cfg, later) == Success(t.claims);
    assert ClaimTruthy(t.claims, "sub") && !ClaimTruthy(t.claims, "session_id");
  }

  /**
   * The access check does not look at `type`: a refresh token naming an
   * active stored user is accepted as an access token until it expires.
   */
  lemma RefreshTokenPassesAccessCheck(users: UserRepositoryImpl, cfg: Config.Settings, user: User, sessionId: string, now: int, later: int)
    requires user.id.Some? && user.id.value != "" && users.GetById(user.id.value) == Some(user) && user.isActive
    requires EpochSeconds(later) <= EpochSeconds(now + cfg.refreshTokenExpireSeconds * Config.MicrosPerSecond)
    ensures AuthVerify.Execute(users, cfg, CreateRefreshToken(AuthRefresh.RefreshClaims(user, sessionId), cfg, now), later)
      == Success(Some(user))
  {
    RefreshTokenRoundTrip(AuthRefresh.RefreshClaims(user, sessionId), cfg, now, later);
  }
}
