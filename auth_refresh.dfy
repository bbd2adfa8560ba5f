/**
 * `AuthRefreshUseCase`: trade a refresh token bound to a live session for a
 * new token pair, rotating the session id so that the old token is spent.
 */
module AuthRefresh {
  import opened Wrappers
  import opened Exceptions
  import opened JwtService
  import Config
  import opened SessionEntity
  import opened SessionRepository
  import opened UserEntity
  import opened UserRepository

  const MissingUserId: string := "Token missing user ID"
  const MissingSessionId: string := "Token missing session ID"
  const UserNotFoundMessage: string := "User not found"
  const InactiveMessage: string := "User account is inactive"
  const SessionGone: string := "Session not found or expired"
  const UserMismatch: string := "Session user mismatch"
  const IpMismatch: string := "Session IP address mismatch"
  const AgentMismatch: string := "Session User-Agent mismatch"
  const SessionExpired: string := "Session expired"

  /** `RefreshResult`: the new tokens and the user they were issued to. */
  datatype RefreshResult = RefreshResult(accessToken: Token, refreshToken: Token, user: User)

  /** What the token checks establish: the active user it names and the text of its session id. */
  datatype Claimant = Claimant(userId: string, user: User, sessionId: string)

  /** What all checks establish: the claimant and the stored session bound to this client. */
  datatype Bound = Bound(claimant: Claimant, session: SessionRecord)

  /**
   * The checks made before any session is read: a refresh token (its
   * errors pass through), a truthy `sub` and `session_id`, and a stored,
   * active user with that id.
   */
  function CheckClaimant(users: UserRepositoryImpl, cfg: Config.Settings, token: Token, now: int): (r: Result<Claimant, Exception>)
    reads users
    ensures r.Failure? ==> IsTokenError(r.error) || r.error.TypeError?
    ensures VerifyRefreshToken(token, cfg, now).Failure? ==> r == Failure(VerifyRefreshToken(token, cfg, now).error)
    ensures VerifyRefreshToken(token, cfg, now).Success? ==>
      var c := VerifyRefreshToken(token, cfg, now).value;
      && (!ClaimTruthy(c, "sub") ==> r == Failure(TokenInvalid(MissingUserId)))
      && (ClaimTruthy(c, "sub") && !ClaimTruthy(c, "session_id") ==> r == Failure(TokenInvalid(MissingSessionId)))
      && (ClaimTruthy(c, "sub") && ClaimTruthy(c, "session_id") ==>
            var found := users.GetById(c["sub"].s);
            && (found.None? ==> r == Failure(TokenInvalid(UserNotFoundMessage)))
            && (found.Some? && !found.value.isActive ==> r == Failure(TokenInvalid(InactiveMessage))))
    ensures r.Success? ==>
      var c := VerifyRefreshToken(token, cfg, now).value;
      && VerifyRefreshToken(token, cfg, now).Success? && ClaimTruthy(c, "sub") && ClaimTruthy(c, "session_id")
      && r.value.userId == c["sub"].s && r.value.sessionId == PyText(c["session_id"])
      && users.GetById(r.value.userId) == Some(r.value.user) && r.value.user.isActive
  {
    var payload :- VerifyRefreshToken(token, cfg, now);
    if !ClaimTruthy(payload, "sub") then Failure(TokenInvalid(MissingUserId))
    else if !ClaimTruthy(payload, "session_id") then Failure(TokenInvalid(MissingSessionId))
    else
      var userId := payload["sub"].s;
      match users.GetById(userId)
      case None => Failure(TokenInvalid(UserNotFoundMessage))
      case Some(user) =>
        if !user.isActive then Failure(TokenInvalid(InactiveMessage))
        else Success(Claimant(userId, user, PyText(payload["session_id"])))
  }

  /**
   * All the checks of `execute` before the expiry test: the claimant's
   * session must be live and belong to the same user, IP address and
   * user agent.
   */
  function Precheck(users: UserRepositoryImpl, t: Table, cfg: Config.Settings, token: Token,
                    ipAddress: string, userAgent: string, now: int): (r: Result<Bound, Exception>)
    reads users
    ensures CheckClaimant(users, cfg, token, now).Failure? ==> r == Failure(CheckClaimant(users, cfg, token, now).error)
    ensures CheckClaimant(users, cfg, token, now).Success? ==>
      var read := ReadSession(t, CheckClaimant(users, cfg, token, now).value.sessionId, now);
      && (read.Failure? ==> r == Failure(read.error))
      && (read == Success(None) ==> r == Failure(TokenInvalid(SessionGone)))
      && (read.Success? && read.value.Some? ==>
            var s := read.value.value;
            var cl := CheckClaimant(users, cfg, token, now).value;
            && (s.userId != cl.userId ==> r == Failure(TokenInvalid(UserMismatch)))
            && (s.userId == cl.userId && s.ipAddress != ipAddress ==> r == Failure(TokenInvalid(IpMismatch)))
            && (s.userId == cl.userId && s.ipAddress == ipAddress && s.userAgent != userAgent ==>
                  r == Failure(TokenInvalid(AgentMismatch))))
    ensures r.Success? ==>
      && CheckClaimant(users, cfg, token, now) == Success(r.value.claimant)
      && ReadSession(t, r.value.claimant.sessionId, now) == Success(Some(r.value.session))
      && r.value.session.userId == r.value.claimant.userId
      && r.value.session.ipAddress == ipAddress && r.value.session.userAgent == userAgent
  {
    var claimant :- CheckClaimant(users, cfg, token, now);
    var found :- ReadSession(t, claimant.sessionId, now);
    if found.None? then Failure(TokenInvalid(SessionGone))
    else
      var session := found.value;
      if session.userId != claimant.userId then Failure(TokenInvalid(UserMismatch))
      else if session.ipAddress != ipAddress then Failure(TokenInvalid(IpMismatch))
      else if session.userAgent != userAgent then Failure(TokenInvalid(AgentMismatch))
      else Success(Bound(claimant, session))
  }

  /** `token_data` of a refresh: the user's id and admin flag and the rotated session id. */
  function RefreshClaims(user: User, sessionId: string): (c: Claims)
    ensures c.Keys == {"sub", "is_admin", "session_id"}
    ensures c["sub"] == OptionalStr(user.id) && c["is_admin"] == Bool(user.isAdmin) && c["session_id"] == Str(sessionId)
  {
    map["sub" := OptionalStr(user.id), "is_admin" := Bool(user.isAdmin), "session_id" := Str(sessionId)]
  }

  /** The session `rotate` is handed and returns: the new expiry set on the stored record, then the new id and `updated_at`. */
  function Rotated(s: SessionRecord, cfg: Config.Settings, newId: string, now: int): (rotated: SessionRecord)
    ensures rotated.id == Some(newId) && rotated.updatedAt == now
    ensures rotated.expiresAt - now == cfg.sessionExpireSeconds * Config.MicrosPerSecond
    ensures rotated.userId == s.userId && rotated.ipAddress == s.ipAddress && rotated.userAgent == s.userAgent
    ensures rotated.createdAt == s.createdAt
  {
    s.(id := Some(newId), updatedAt := now, expiresAt := now + cfg.sessionExpireSeconds * Config.MicrosPerSecond)
  }

  /**
   * `execute(refresh_token, ip_address, user_agent)`. After the checks, a
   * session past its `expires_at` is deleted and refused; any other is
   * given a new expiry and rotated to the id `newId` exactly once, and the
   * new tokens name the rotated id.
   */
  method Execute(users: UserRepositoryImpl, sessions: RedisSessionRepository, cfg: Config.Settings, token: Token,
                 ipAddress: string, userAgent: string, now: int, newId: string) returns (r: Result<RefreshResult, Exception>)
    requires sessions.Valid() && IsUuidText(newId) && newId !in sessions.issued
    modifies sessions`store, sessions`issued, sessions`retired
    ensures sessions.Valid()
    ensures var pre := Precheck(users, old(sessions.store), cfg, token, ipAddress, userAgent, now);
      && (pre.Failure? ==> r == Failure(pre.error) && sessions.store == old(sessions.store) && sessions.retired == old(sessions.retired))
      && (pre.Success? ==> Concluded(old(sessions.store), old(sessions.retired), sessions.store, sessions.retired, sessions.digest, cfg, pre.value, now, newId, r))
    ensures old(ExpiryConsistent(sessions.store)) ==> ExpiryConsistent(sessions.store)
  {
    var pre := Precheck(users, sessions.store, cfg, token, ipAddress, userAgent, now);
    if pre.Failure? {
      return Failure(pre.error);
    }
    r := Conclude(sessions, cfg, pre.value, now, newId);
  }

  /**
   * How a refresh ends once the checks have passed, from store `t0` and
   * retired ids `retired0` to `t1` and `retired1`: an expired session is
   * deleted and refused; otherwise the rotated session is written under
   * `newId`, the old id is retired and the new tokens returned, unless the
   * configured lifetime is under a second and `rotate` refuses it.
   */
  ghost predicate Concluded(t0: Table, retired0: set<string>, t1: Table, retired1: set<string>, digest: string -> string,
                            cfg: Config.Settings, b: Bound, now: int, newId: string, r: Result<RefreshResult, Exception>)
  {
    if b.session.expiresAt < now then
      && r == Failure(TokenInvalid(SessionExpired))
      && t1 == DeleteTable(t0, digest, b.claimant.sessionId, b.session)
      && retired1 == retired0
    else
      var rotated := Rotated(b.session, cfg, newId, now);
      var ttl := TtlSeconds(rotated.expiresAt, now);
      var user := b.claimant.user;
      if ttl <= 0 then
        r == Failure(ValueError(TtlMessage)) && t1 == t0 && retired1 == retired0
      else
        && t1 == RotateTable(t0, digest, rotated, b.claimant.sessionId, ttl, now)
        && retired1 == retired0 + {b.claimant.sessionId}
        && r == Success(RefreshResult(CreateAccessToken(RefreshClaims(user, newId), None, cfg, now),
                                      CreateRefreshToken(RefreshClaims(user, newId), cfg, now), user))
  }

  /** The expiry test, then `delete`, or the new expiry and `rotate` followed by the new tokens. */
  method Conclude(sessions: RedisSessionRepository, cfg: Config.Settings, b: Bound, now: int, newId: string)
    returns (r: Result<RefreshResult, Exception>)
    requires sessions.Valid() && IsUuidText(newId) && newId !in sessions.issued
    requires ReadSession(sessions.store, b.claimant.sessionId, now) == Success(Some(b.session))
    modifies sessions`store, sessions`issued, sessions`retired
    ensures sessions.Valid()
    ensures Concluded(old(sessions.store), old(sessions.retired), sessions.store, sessions.retired, sessions.digest, cfg, b, now, newId, r)
    ensures old(ExpiryConsistent(sessions.store)) ==> ExpiryConsistent(sessions.store)
  {
    if b.session.expiresAt < now {
      var _ := sessions.Delete(b.claimant.sessionId, now);
      return Failure(TokenInvalid(SessionExpired));
    }
    r := RotateAndIssue(sessions, cfg, b, now, newId);
  }

  /** `session.expires_at = now + session_expire_seconds`, `rotate(session)`, and the tokens naming the rotated id. */
  method RotateAndIssue(sessions: RedisSessionRepository, cfg: Config.Settings, b: Bound, now: int, newId: string)
    returns (r: Result<RefreshResult, Exception>)
    requires sessions.Valid() && IsUuidText(newId) && newId !in sessions.issued
    requires ReadSession(sessions.store, b.claimant.sessionId, now) == Success(Some(b.session))
    modifies sessions`store, sessions`issued, sessions`retired
    ensures sessions.Valid()
    ensures var rotated := Rotated(b.session, cfg, newId, now);
      var ttl := TtlSeconds(rotated.expiresAt, now);
      var user := b.claimant.user;
      if ttl <= 0 then
        r == Failure(ValueError(TtlMessage)) && sessions.store == old(sessions.store) && sessions.retired == old(sessions.retired)
      else
        && sessions.store == RotateTable(old(sessions.store), sessions.digest, rotated, b.claimant.sessionId, ttl, now)
        && sessions.retired == old(sessions.retired) + {b.claimant.sessionId}
        && r == Success(RefreshResult(CreateAccessToken(RefreshClaims(user, newId), None, cfg, now),
                                      CreateRefreshToken(RefreshClaims(user, newId), cfg, now), user))
    ensures old(ExpiryConsistent(sessions.store)) ==> ExpiryConsistent(sessions.store)
  {
    var sessionId := b.claimant.sessionId;
    var user := b.claimant.user;
    ReadWellFormed(sessions.store, sessions.issued, sessions.retired, sessionId, now);
    var session := new Session.FromRecord(b.session);
    session.expiresAt := now + cfg.sessionExpireSeconds * Config.MicrosPerSecond;
    assert session.id == Some(sessionId) && sessionId != "";
    assert session.Record().(id := Some(newId), createdAt := b.session.createdAt, updatedAt := now) == Rotated(b.session, cfg, newId, now);
    var rotated := sessions.Rotate(session, now, newId);
    if rotated.Failure? {
      return Failure(rotated.error);
    }
    var tokenData := RefreshClaims(user, rotated.value.id.value);
    r := Success(RefreshResult(CreateAccessToken(tokenData, None, cfg, now), CreateRefreshToken(tokenData, cfg, now), user));
  }

  /**
   * Single use: once a session id is retired, every refresh token naming it
   * gets past the token and user checks only to be refused with
   * "Session not found or expired", whoever presents it and whenever.
   */
  lemma ReplayRejected(users: UserRepositoryImpl, t: Table, issued: set<string>, retired: set<string>, cfg: Config.Settings,
                       token: Token, ipAddress: string, userAgent: string, now: int)
    requires Invariant(t, issued, retired)
    requires CheckClaimant(users, cfg, token, now).Success? && CheckClaimant(users, cfg, token, now).value.sessionId in retired
    ensures Precheck(users, t, cfg, token, ipAddress, userAgent, now) == Failure(TokenInvalid(SessionGone))
  {
    RetiredUnreadable(t, issued, retired, CheckClaimant(users, cfg, token, now).value.sessionId, now);
  }

  /**
   * A refresh that succeeds spends its token: against the table the
   * rotation leaves, the same token is refused at any later instant, from
   * any client, as soon as it gets past the token and user checks.
   */
  lemma SuccessSpendsToken(users: UserRepositoryImpl, t: Table, issued: set<string>, retired: set<string>,
                           digest: string -> string, cfg: Config.Settings, token: Token, ipAddress: string, userAgent: string,
                           now: int, newId: string, laterIp: string, laterAgent: string, later: int)
    requires Invariant(t, issued, retired) && IsUuidText(newId) && newId !in issued
    requires Precheck(users, t, cfg, token, ipAddress, userAgent, now).Success?
    requires CheckClaimant(users, cfg, token, later).Success?
    ensures var b := Precheck(users, t, cfg, token, ipAddress, userAgent, now).value;
      var rotated := Rotated(b.session, cfg, newId, now);
      forall ttl :: Precheck(users, RotateTable(t, digest, rotated, b.claimant.sessionId, ttl, now), cfg, token, laterIp, laterAgent, later)
        == Failure(TokenInvalid(SessionGone))
  {
    var b := Precheck(users, t, cfg, token, ipAddress, userAgent, now).value;
    var oldId := b.claimant.sessionId;
    var rotated := Rotated(b.session, cfg, newId, now);
    ReadWellFormed(t, issued, retired, oldId, now);
    forall ttl
      ensures Precheck(users, RotateTable(t, digest, rotated, oldId, ttl, now), cfg, token, laterIp, laterAgent, later)
        == Failure(TokenInvalid(SessionGone))
    {
      RotateKeepsInvariant(t, issued + {newId}, retired, digest, rotated, oldId, ttl, now);
      ReplayRejected(users, RotateTable(t, digest, rotated, oldId, ttl, now), issued + {newId}, retired + {oldId},
                     cfg, token, laterIp, laterAgent, later);
    }
  }
}
