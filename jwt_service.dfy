/**
 * `JWTService`: signed tokens carrying a claim set. Signing and encoding are
 * not modelled: a token is either the claims together with the key and
 * algorithm that signed them, or text that does not parse as a token.
 */
module JwtService {
  import opened Wrappers
  import opened Exceptions
  import PyStr
  import Config

  /** A claim value as JSON decoding gives it back. */
  datatype ClaimValue =
    | Str(s: string)
    | Int(i: int)
    | Bool(b: bool)
    | Null
    /** A JSON number with a fraction or an exponent: its `str()` text, `int()` of it (truncated toward zero) and its truthiness. */
    | Float(repr: string, whole: int, truthy: bool)
    /** A JSON array: its `str()` text, whether every element is a text, and whether it is non-empty. */
    | Array(repr: string, allStrings: bool, truthy: bool)
    /** A JSON object: its `str()` text and whether it is non-empty. */
    | Object(repr: string, truthy: bool)

  type Claims = map<string, ClaimValue>

  datatype Token =
    | Signed(claims: Claims, key: string, algorithm: string)
    | Malformed(text: string)

  /** Python truthiness of a claim value (`if not value`). */
  predicate Truthy(v: ClaimValue) {
    match v
    case Str(s) => s != ""
    case Int(i) => i != 0
    case Bool(b) => b
    case Null => false
    case Float(_, _, t) => t
    case Array(_, _, t) => t
    case Object(_, t) => t
  }

  /** `payload.get(name)` tested for truthiness: a missing claim is `None`, which is falsy. */
  predicate ClaimTruthy(c: Claims, name: string) {
    name in c && Truthy(c[name])
  }

  /** `str(value)` of a claim value, as an f-string renders it. */
  function PyText(v: ClaimValue): string {
    match v
    case Str(s) => s
    case Int(i) => PyStr.IntToDecimal(i)
    case Bool(b) => if b then "True" else "False"
    case Null => "None"
    case Float(repr, _, _) => repr
    case Array(repr, _, _) => repr
    case Object(repr, _) => repr
  }

  /** `Optional[str]` as a claim: `None` becomes JSON null. */
  function OptionalStr(o: Option<string>): ClaimValue {
    if o.Some? then Str(o.value) else Null
  }

  /** The integer a datetime claim is turned into: whole seconds since the epoch, rounded down. */
  function EpochSeconds(t: int): int { t / Config.MicrosPerSecond }

  const ExpiredMessage: string := "Token has expired"
  const NotRefreshMessage: string := "Token is not a refresh token"
  const BadSignature: string := "Signature verification failed."
  const BadAlgorithm: string := "The specified alg value is not allowed"
  const BadSegments: string := "Not enough segments"
  const BadIat: string := "Issued At claim (iat) must be an integer."
  const BadExp: string := "Expiration Time claim (exp) must be an integer."
  const BadSub: string := "Subject must be a string."
  const BadNbf: string := "Not Before claim (nbf) must be an integer."
  const NotYetValid: string := "The token is not yet valid (nbf)"
  const BadAudience: string := "Invalid audience"
  const BadClaimFormat: string := "Invalid claim format in token"
  const BadJti: string := "JWT ID must be a string."
  const NoAccessToken: string := "No access_token provided to compare against at_hash claim."

  /** `jwt.encode(claims, settings.jwt_secret_key, algorithm=settings.jwt_algorithm)`. */
  function Encode(claims: Claims, cfg: Config.Settings): Token {
    Signed(claims, cfg.jwtSecretKey, cfg.jwtAlgorithm)
  }

  /** The expiry instant of an access token: `now + expires_delta` when the delta is truthy (non-zero), else the configured lifetime. */
  function AccessExpiry(expiresDelta: Option<int>, cfg: Config.Settings, now: int): (expire: int)
    ensures expiresDelta.Some? && expiresDelta.value != 0 ==> expire - now == expiresDelta.value
    ensures expiresDelta.None? || expiresDelta.value == 0 ==> expire - now == cfg.accessTokenExpireSeconds * Config.MicrosPerSecond
  {
    if expiresDelta.Some? && expiresDelta.value != 0 then now + expiresDelta.value
    else now + cfg.accessTokenExpireSeconds * Config.MicrosPerSecond
  }

  /** `create_access_token`: the data plus `exp` and `iat`, which replace any given ones. */
  function CreateAccessToken(data: Claims, expiresDelta: Option<int>, cfg: Config.Settings, now: int): (t: Token)
    ensures t.Signed? && t.key == cfg.jwtSecretKey && t.algorithm == cfg.jwtAlgorithm
    ensures t.claims.Keys == data.Keys + {"exp", "iat"}
    ensures forall k | k in data && k != "exp" && k != "iat" :: t.claims[k] == data[k]
    ensures t.claims["iat"] == Int(EpochSeconds(now))
    ensures t.claims["exp"] == Int(EpochSeconds(AccessExpiry(expiresDelta, cfg, now)))
  {
    Encode(data + map["exp" := Int(EpochSeconds(AccessExpiry(expiresDelta, cfg, now))), "iat" := Int(EpochSeconds(now))], cfg)
  }

  /** `create_refresh_token`: the data plus `exp` (the configured refresh lifetime), `iat` and `type: "refresh"`. */
  function CreateRefreshToken(data: Claims, cfg: Config.Settings, now: int): (t: Token)
    ensures t.Signed? && t.key == cfg.jwtSecretKey && t.algorithm == cfg.jwtAlgorithm
    ensures t.claims.Keys == data.Keys + {"exp", "iat", "type"}
    ensures forall k | k in data && k != "exp" && k != "iat" && k != "type" :: t.claims[k] == data[k]
    ensures t.claims["type"] == Str("refresh") && t.claims["iat"] == Int(EpochSeconds(now))
    ensures t.claims["exp"] == Int(EpochSeconds(now + cfg.refreshTokenExpireSeconds * Config.MicrosPerSecond))
  {
    var expire := now + cfg.refreshTokenExpireSeconds * Config.MicrosPerSecond;
    Encode(data + map["exp" := Int(EpochSeconds(expire)), "iat" := Int(EpochSeconds(now)), "type" := Str("refresh")], cfg)
  }

  /** What `int(value)` does with a claim value: an integer, a `ValueError`, or a `TypeError` naming the value's type. */
  datatype Coercion = Coerced(value: int) | NotANumber | WrongType(typeName: string)

  function PyInt(v: ClaimValue): Coercion {
    match v
    case Str(s) => if PyStr.ParseInt(s).Some? then Coerced(PyStr.ParseInt(s).value) else NotANumber
    case Int(i) => Coerced(i)
    case Bool(b) => Coerced(if b then 1 else 0)
    case Null => WrongType("NoneType")
    case Float(_, whole, _) => Coerced(whole)
    case Array(_, _, _) => WrongType("list")
    case Object(_, _) => WrongType("dict")
  }

  function IntTypeMessage(typeName: string): string {
    "int() argument must be a string, a bytes-like object or a real number, not '" + typeName + "'"
  }

  /**
   * What `jwt.decode` raises: `ExpiredSignatureError`, another `JWTError`
   * with its message, or the `TypeError` of `int()`, which is no `JWTError`.
   */
  datatype JoseError = ExpiredSignature | JwtError(message: string) | IntTypeError(message: string)

  /** A numeric claim as jose reads it: absent, the value of `int()` on it, or what `int()` raises. */
  function NumericClaim(c: Claims, name: string, badMessage: string): Result<Option<int>, JoseError> {
    if name !in c then Success(None)
    else match PyInt(c[name])
      case Coerced(i) => Success(Some(i))
      case NotANumber => Failure(JwtError(badMessage))
      case WrongType(t) => Failure(IntTypeError(IntTypeMessage(t)))
  }

  /** Why an `aud` claim is refused when no audience is expected: no audience is among its texts, or it has no audience form. */
  function AudienceMessage(aud: ClaimValue): string {
    if aud.Str? || (aud.Array? && aud.allStrings) then BadAudience else BadClaimFormat
  }

  /**
   * jose's claim checks with the default options, no leeway and no expected
   * audience, issuer, subject or access token, in jose's order: `iat`,
   * `nbf`, `exp`, `aud`, `sub`, `jti`, `at_hash`. The issuer check does
   * nothing when no issuer is expected. `nowS` is the current second.
   */
  function ValidateClaims(c: Claims, nowS: int): Result<Claims, JoseError> {
    var _ :- NumericClaim(c, "iat", BadIat);
    var nbf :- NumericClaim(c, "nbf", BadNbf);
    if nbf.Some? && nbf.value > nowS then Failure(JwtError(NotYetValid))
    else
      var exp :- NumericClaim(c, "exp", BadExp);
      if exp.Some? && exp.value < nowS then Failure(ExpiredSignature)
      else if "aud" in c then Failure(JwtError(AudienceMessage(c["aud"])))
      else if "sub" in c && !c["sub"].Str? then Failure(JwtError(BadSub))
      else if "jti" in c && !c["jti"].Str? then Failure(JwtError(BadJti))
      else if "at_hash" in c then Failure(JwtError(NoAccessToken))
      else Success(c)
  }

  /**
   * `jwt.decode` with the configured key and algorithm: the token must
   * parse, name the configured algorithm and carry the configured key's
   * signature; then its claims are checked.
   */
  function JoseDecode(token: Token, cfg: Config.Settings, now: int): Result<Claims, JoseError> {
    if token.Malformed? then Failure(JwtError(BadSegments))
    else if token.algorithm != cfg.jwtAlgorithm then Failure(JwtError(BadAlgorithm))
    else if token.key != cfg.jwtSecretKey then Failure(JwtError(BadSignature))
    else ValidateClaims(token.claims, EpochSeconds(now))
  }

  /** The checks jose makes before `exp`: `iat` and `nbf` read as integers, and `nbf` is not after second `nowS`. */
  predicate BeforeExpOk(c: Claims, nowS: int) {
    && ("iat" in c ==> PyInt(c["iat"]).Coerced?)
    && ("nbf" in c ==> PyInt(c["nbf"]).Coerced? && PyInt(c["nbf"]).value <= nowS)
  }

  /** The claim sets jose accepts at second `nowS`, stated claim by claim, without regard to the order of the checks. */
  predicate AcceptableClaims(c: Claims, nowS: int) {
    && BeforeExpOk(c, nowS)
    && ("exp" in c ==> PyInt(c["exp"]).Coerced? && PyInt(c["exp"]).value >= nowS)
    && "aud" !in c && "at_hash" !in c
    && ("sub" in c ==> c["sub"].Str?)
    && ("jti" in c ==> c["jti"].Str?)
  }

  /** A token signed with the configured key for the configured algorithm. */
  predicate SignedFor(token: Token, cfg: Config.Settings) {
    token.Signed? && token.key == cfg.jwtSecretKey && token.algorithm == cfg.jwtAlgorithm
  }

  /**
   * `decode_token`: the payload of a valid, unexpired token; an expired one
   * is `TokenExpiredError`, any other `JWTError` is `TokenInvalidError`, and
   * the `TypeError` of a numeric claim that is no number passes through.
   */
  function DecodeToken(token: Token, cfg: Config.Settings, now: int): (r: Result<Claims, Exception>)
    ensures r.Success? <==> SignedFor(token, cfg) && AcceptableClaims(token.claims, EpochSeconds(now))
    ensures r.Success? ==> r.value == token.claims
    ensures r.Failure? ==> IsTokenError(r.error) || r.error.TypeError?
    ensures r.Failure? && r.error.Authentication? && r.error.authError.TokenExpiredError? ==> r == Failure(TokenExpired(ExpiredMessage))
    ensures r == Failure(TokenExpired(ExpiredMessage)) <==>
      && SignedFor(token, cfg) && BeforeExpOk(token.claims, EpochSeconds(now))
      && "exp" in token.claims && PyInt(token.claims["exp"]).Coerced? && PyInt(token.claims["exp"]).value < EpochSeconds(now)
    ensures r.Failure? && r.error.TypeError? ==>
      && SignedFor(token, cfg)
      && (|| ("iat" in token.claims && PyInt(token.claims["iat"]).WrongType?)
          || ("nbf" in token.claims && PyInt(token.claims["nbf"]).WrongType?)
          || ("exp" in token.claims && PyInt(token.claims["exp"]).WrongType?))
  {
    match JoseDecode(token, cfg, now)
    case Success(payload) => Success(payload)
    case Failure(ExpiredSignature) => Failure(TokenExpired(ExpiredMessage))
    case Failure(JwtError(m)) => Failure(TokenInvalid("Invalid token: " + m))
    case Failure(IntTypeError(m)) => Failure(TypeError(m))
  }

  /** `verify_refresh_token`: a decoded token whose `type` claim is the string "refresh". */
  function VerifyRefreshToken(token: Token, cfg: Config.Settings, now: int): (r: Result<Claims, Exception>)
    ensures r.Failure? ==> IsTokenError(r.error) || r.error.TypeError?
    ensures r.Success? ==> DecodeToken(token, cfg, now) == Success(r.value) && "type" in r.value && r.value["type"] == Str("refresh")
    ensures DecodeToken(token, cfg, now).Failure? ==> r == DecodeToken(token, cfg, now)
    ensures DecodeToken(token, cfg, now).Success? && !r.Success? ==> r == Failure(TokenInvalid(NotRefreshMessage))
  {
    var payload :- DecodeToken(token, cfg, now);
    if "type" !in payload || payload["type"] != Str("refresh") then Failure(TokenInvalid(NotRefreshMessage))
    else Success(payload)
  }

  /** Token data that carries none of the claims jose checks, except a text `sub` or `jti`. */
  predicate PlainData(data: Claims) {
    && "nbf" !in data && "aud" !in data && "at_hash" !in data
    && ("sub" in data ==> data["sub"].Str?)
    && ("jti" in data ==> data["jti"].Str?)
  }

  /**
   * An access token minted from plain data decodes to exactly its claims
   * until the end of the second named by its `exp`, and is reported expired
   * after that.
   */
  lemma AccessTokenRoundTrip(data: Claims, expiresDelta: Option<int>, cfg: Config.Settings, now: int, later: int)
    requires PlainData(data)
    ensures var t := CreateAccessToken(data, expiresDelta, cfg, now);
      var exp := EpochSeconds(AccessExpiry(expiresDelta, cfg, now));
      DecodeToken(t, cfg, later) == if EpochSeconds(later) <= exp then Success(t.claims) else Failure(TokenExpired(ExpiredMessage))
  {
  }

  /** A refresh token minted from plain data passes `verify_refresh_token` with its claims until its `exp` second is over. */
  lemma RefreshTokenRoundTrip(data: Claims, cfg: Config.Settings, now: int, later: int)
    requires PlainData(data)
    ensures var t := CreateRefreshToken(data, cfg, now);
      var exp := EpochSeconds(now + cfg.refreshTokenExpireSeconds * Config.MicrosPerSecond);
      VerifyRefreshToken(t, cfg, later) == if EpochSeconds(later) <= exp then Success(t.claims) else Failure(TokenExpired(ExpiredMessage))
  {
  }

  /** No audience is expected, so an unexpired token whose data names one is refused as invalid. */
  lemma AudienceRefused(data: Claims, expiresDelta: Option<int>, cfg: Config.Settings, now: int, later: int)
    requires "aud" in data && "nbf" !in data
    requires EpochSeconds(later) <= EpochSeconds(AccessExpiry(expiresDelta, cfg, now))
    ensures DecodeToken(CreateAccessToken(data, expiresDelta, cfg, now), cfg, later)
      == Failure(TokenInvalid("Invalid token: " + AudienceMessage(data["aud"])))
  {
  }

  /** A token whose `nbf` lies after the current second is refused as not yet valid, before its expiry is looked at. */
  lemma NotYetValidRefused(data: Claims, expiresDelta: Option<int>, cfg: Config.Settings, now: int, later: int)
    requires "nbf" in data && PyInt(data["nbf"]).Coerced? && PyInt(data["nbf"]).value > EpochSeconds(later)
    ensures DecodeToken(CreateAccessToken(data, expiresDelta, cfg, now), cfg, later)
      == Failure(TokenInvalid("Invalid token: " + NotYetValid))
  {
  }

  /**
   * A correctly signed token whose `exp` is JSON null makes `int()` raise
   * `TypeError`, which `decode_token` does not catch.
   */
  lemma NullExpEscapes(claims: Claims, cfg: Config.Settings, now: int)
    requires "iat" !in claims && "nbf" !in claims && "exp" in claims && claims["exp"] == Null
    ensures DecodeToken(Signed(claims, cfg.jwtSecretKey, cfg.jwtAlgorithm), cfg, now) == Failure(TypeError(IntTypeMessage("NoneType")))
  {
  }

  /** `exp` is read with `int()`, so a text holding the printed number of the current second still counts as unexpired. */
  lemma TextExpAccepted(text: string, cfg: Config.Settings, now: int)
    requires text == PyStr.IntToDecimal(EpochSeconds(now))
    ensures var claims := map["exp" := Str(text)];
      DecodeToken(Signed(claims, cfg.jwtSecretKey, cfg.jwtAlgorithm), cfg, now) == Success(claims)
  {
    TextExpAcceptable(text, EpochSeconds(now));
  }

  lemma TextExpAcceptable(text: string, nowS: int)
    requires text == PyStr.IntToDecimal(nowS)
    ensures AcceptableClaims(map["exp" := Str(text)], nowS)
  {
    PyStr.ParseIntPrinted(nowS);
    var claims := map["exp" := Str(text)];
    assert PyInt(claims["exp"]) == Coerced(nowS);
  }

  /** An access token is never accepted as a refresh token unless its data forged a `type: "refresh"` claim. */
  lemma AccessTokenIsNotRefresh(data: Claims, expiresDelta: Option<int>, cfg: Config.Settings, now: int, later: int)
    requires "type" !in data || data["type"] != Str("refresh")
    ensures VerifyRefreshToken(CreateAccessToken(data, expiresDelta, cfg, now), cfg, later).Failure?
  {
  }

  /** With the default lifetimes, a fresh access token outlives its issue second by 300 seconds. */
  lemma DefaultAccessLifetime(data: Claims, now: int)
    ensures var t := CreateAccessToken(data, None, Config.Defaults(), now);
      t.claims["exp"].i - t.claims["iat"].i == 300
  {
    var cfg := Config.Defaults();
    assert AccessExpiry(None, cfg, now) == now + 300 * Config.MicrosPerSecond;
  }

  /** A token signed with any other key is refused as invalid, whatever it claims. */
  lemma ForeignKeyRejected(claims: Claims, key: string, cfg: Config.Settings, now: int)
    requires key != cfg.jwtSecretKey
    ensures DecodeToken(Signed(claims, key, cfg.jwtAlgorithm), cfg, now) == Failure(TokenInvalid("Invalid token: " + BadSignature))
  {
  }
}
