# Priyut "Luchshiy Drug" backend — a Dafny model of its core

The backend of the "Luchshiy Drug" animal shelter is a FastAPI application. It keeps users and pets in MongoDB, login sessions in Redis and pet images in an S3-compatible object store. This project models its core in Dafny and proves properties of that model:

- **Bearer tokens**: the JWT service that issues and checks access and refresh tokens.
- **The three authentication use cases**:
  - login: email and password in, a token pair out;
  - verify: a bearer token in, the active user it names out;
  - refresh: a refresh token bound to a live session in, a new pair out, with the session rotated so the old token is spent.
- **The Redis session repository**: a session record under `session:<id>` and a per-client index entry under `session:user:<sha256>`, both written with a time to live.
- **The HTTP dependencies and handlers**:
  - the dependencies that turn a verification result into a user, a 401 or a 403;
  - the two exception handlers;
  - the helpers that read the client IP and User-Agent.
- **Users**: the user entity, its document mapper and the user repository.
- **Pets**: the pet entity, its validators and mapper, and the pet repository. The repository covers filters, allowlisted sorting, paging and the "merge every non-`None` field" update.
- **The pet use cases**: list, detail, create, update and delete.
- **Images**: the upload, get and delete use cases and the `/uploads` routes.
- **Settings**: their defaults and the MongoDB URL.

Conventions of the model:

- **Time**: instants are integers counting microseconds since the epoch (`Config.MicrosPerSecond`).
  - JWT `exp` and `iat` are whole seconds, rounded down.
  - A Redis TTL is `int(total_seconds())`, which truncates toward zero.
- **Stores**: the MongoDB collections are sequences of documents in insertion order. That is the order in which an unsorted query meets them.
- **Redis**: one map from key to value plus expiry instant.
- **Object store**: one map from key to content and content type.
- **Parameters**: anything the code draws from a clock, a random generator or a library is an explicit parameter or a class constant:
  - `now`;
  - the new uuid;
  - the new ObjectId;
  - the SHA-256 digest;
  - the password check;
  - MongoDB's sort and `$regex`.

## Model

| member | source | states |
|---|---|---|
| Config.Defaults | backend/config.py:18-120 | access tokens live 300 s; refresh tokens and sessions one week; uploads are capped at 5 MiB; no MongoDB credentials by default |
| Config.MongodbUrl | backend/config.py:39-50 | the URL always starts with `mongodb://` |
| Config.MongodbUrlForms | backend/config.py:39-50 | with both credentials non-empty, the URL is the plain one with `user:password@` after the scheme and `?authSource=admin` appended; with either empty, it is the plain URL and does not depend on them |
| Config.DefaultMongodbUrl | backend/config.py:18-50 | the default settings give the credential-free URL, with port text `27017` |
| JwtService.AccessExpiry | backend/infrastructure/services/jwt_service.py:30-35 | the expiry is `now + delta` for a truthy delta, else `now` plus the configured access lifetime |
| JwtService.CreateAccessToken | backend/infrastructure/services/jwt_service.py:19-40 | the token is signed with the configured key and algorithm; its claims are the data plus `exp` and `iat`, which override any given ones; every other claim is kept |
| JwtService.CreateRefreshToken | backend/infrastructure/services/jwt_service.py:43-60 | the same, plus `type: "refresh"`, with `exp` at the configured refresh lifetime |
| JwtService.DecodeToken | backend/infrastructure/services/jwt_service.py:63-84 | a success is exactly a token signed with the configured key and algorithm whose claims pass every jose check (`iat` and `nbf` read by `int()`, `nbf` not after the current second, `exp` read by `int()` and not before it, no `aud`, no `at_hash`, a text `sub` and `jti` when present), and it returns those claims; an expired token gives exactly "Token has expired", and exactly when the checks before `exp` pass and `exp` is read as an earlier second; every other failure is a token error, except the `TypeError` of `int()` on a null, list or object `iat`, `nbf` or `exp`, which passes through |
| JwtService.VerifyRefreshToken | backend/infrastructure/services/jwt_service.py:87-103 | decode errors pass through unchanged; a decoded token without `type == "refresh"` gets "Token is not a refresh token"; a success is a decoded refresh token |
| JwtService.AccessTokenRoundTrip | backend/infrastructure/services/jwt_service.py:19-84 | an access token minted from data without `nbf`, `aud` or `at_hash` and with a text `sub` and `jti` when present decodes to its claims until the end of its `exp` second and is reported expired after it |
| JwtService.AudienceRefused | backend/infrastructure/services/jwt_service.py:76-84 | no audience is expected, so an unexpired token whose data names one is invalid, with "Invalid audience" for a text or a list of texts and "Invalid claim format in token" otherwise |
| JwtService.NotYetValidRefused | backend/infrastructure/services/jwt_service.py:76-84 | a token whose `nbf` is after the current second is invalid as "not yet valid", whatever its expiry |
| JwtService.NullExpEscapes | backend/infrastructure/services/jwt_service.py:76-84 | a correctly signed token with a null `exp` makes decoding raise the `TypeError` of `int()`, not a token error |
| JwtService.TextExpAccepted | backend/infrastructure/services/jwt_service.py:76-84 | an `exp` given as the text of the current second is read by `int()` and accepted |
| JwtService.RefreshTokenRoundTrip | backend/infrastructure/services/jwt_service.py:43-103 | a refresh token minted from the same kind of data passes refresh verification until its `exp` second is over, and is reported expired after it |
| JwtService.AccessTokenIsNotRefresh | backend/infrastructure/services/jwt_service.py:19-40 | an access token is refused as a refresh token unless its data forged `type: "refresh"` |
| JwtService.DefaultAccessLifetime | backend/infrastructure/services/jwt_service.py:33-36 | with the default settings, `exp - iat` of an access token is 300 |
| JwtService.ForeignKeyRejected | backend/infrastructure/services/jwt_service.py:76-84 | a token signed with another key is invalid, whatever it claims |
| AuthLogin.LoginClaims | backend/application/use_cases/auth_login.py:77 | the token data is exactly `sub` (the user id) and `is_admin`, and has no `session_id` |
| AuthLogin.Execute | backend/application/use_cases/auth_login.py:50-83 | an unknown email and a wrong password give the same error; an inactive account fails before the password is checked; a success is the active stored user whose password matched, with both tokens minted from its claims |
| AuthLogin.LoginTokenClaims | backend/application/use_cases/auth_login.py:76-83 | both tokens carry the same `sub` and `is_admin`; the access claims are exactly `sub, is_admin, exp, iat`; the refresh claims add `type` |
| AuthVerify.Execute | backend/application/use_cases/auth_verify.py:29-61 | decode errors pass through; then a missing or falsy `sub`, an unknown user and an inactive user each give their own message; a success is always a user (never `None`), the stored active one |
| AuthRefresh.CheckClaimant | backend/application/use_cases/auth_refresh.py:73-95 | refresh-token errors pass through; then a missing `sub`, a missing `session_id`, an unknown user and an inactive user, in that order |
| AuthRefresh.Precheck | backend/application/use_cases/auth_refresh.py:73-108 | after the claimant checks: session read errors pass through; then "not found or expired", a user mismatch, an IP mismatch and a User-Agent mismatch, in that order; a success is a live session bound to this client |
| AuthRefresh.RefreshClaims | backend/application/use_cases/auth_refresh.py:123-127 | the new token data is exactly `sub`, `is_admin` and the rotated `session_id` |
| AuthRefresh.Rotated | backend/application/use_cases/auth_refresh.py:117-120 | the rotated record has the new id, the new `updated_at` and an expiry one session lifetime away; user, IP, agent and creation time are kept |
| AuthRefresh.Execute | backend/application/use_cases/auth_refresh.py:56-133 | a failed check leaves the store unchanged; otherwise an expired session is deleted and refused, else it is rotated and the new tokens name the rotated id; the store invariant and the expiry bound are kept |
| AuthRefresh.Conclude | backend/application/use_cases/auth_refresh.py:110-133 | the expiry test, then `delete`, or rotate-and-issue, as in `Concluded` |
| AuthRefresh.RotateAndIssue | backend/application/use_cases/auth_refresh.py:115-133 | the session is re-expired and rotated to the new id; a sub-second lifetime is refused with the store unchanged; otherwise the old id is retired and both tokens name the new id |
| AuthRefresh.ReplayRejected | backend/application/use_cases/auth_refresh.py:98-100 | a refresh token naming a retired session id is refused with "Session not found or expired", from any client, at any time |
| AuthRefresh.SuccessSpendsToken | backend/infrastructure/repositories/session_repository_impl.py:182-245 | after a successful rotation, the same refresh token is refused against the resulting store, later and from any client |
| AuthFlows.LoggedInUserFoundById | backend/application/use_cases/auth_login.py:50-83 | a user that login returns has a non-empty id, and looking it up by that id gives the same user |
| AuthFlows.LoginAccessTokenVerifies | backend/application/use_cases/auth_verify.py:29-61 | the access token of a login verifies to its user until its `exp` second and is expired after it |
| AuthFlows.LoginRefreshTokenRefused | backend/application/use_cases/auth_refresh.py:85-86 | a login refresh token carries no session id, so refresh refuses it with "Token missing session ID" while it is unexpired |
| AuthFlows.RefreshTokenPassesAccessCheck | backend/application/use_cases/auth_verify.py:29-61 | verification ignores `type`, so a refresh token naming an active stored user is accepted as an access token |
| Http.Challenge | backend/api/dependencies/auth.py:46-63 | a 401 with the detail given and the `WWW-Authenticate: Bearer` header |
| ExceptionHandler.AuthExceptionHandler | backend/api/middleware/exception_handler.py:15-50 | always a 401 with the bearer challenge; an expired token gives "Token has expired", an invalid one "Could not validate credentials"; a credentials error shows its own message or a default; anything else "Authentication required" |
| ExceptionHandler.TokenMessagesHidden | backend/api/middleware/exception_handler.py:15-50 | two token errors of the same kind give the same response, whatever their messages |
| ExceptionHandler.AuthorizationExceptionHandler | backend/api/middleware/exception_handler.py:53-70 | a 403 with the error's message, or "Not enough permissions" when it is empty; no headers |
| AuthDependencies.GetCurrentUser | backend/api/dependencies/auth.py:20-63 | it provides a user exactly when verification returned one; `None` and token errors become 401s with the bearer challenge; other exceptions pass on |
| AuthDependencies.CurrentUserAgreesWithHandler | backend/api/dependencies/auth.py:41-63 | for a token error the dependency answers as the application's authentication handler would |
| AuthDependencies.GetOptionalCurrentUser | backend/api/dependencies/auth.py:66-92 | no credentials, or a token error, gives no user; anything else is what verification returned |
| AuthDependencies.OptionalAgreesWithStrict | backend/api/dependencies/auth.py:20-92 | the optional dependency yields a user exactly when the strict one provides that user |
| AuthDependencies.GetAdminUser | backend/api/dependencies/auth.py:95-119 | it provides the user exactly when the current user is an administrator; a non-admin gets 403 "Not enough permissions"; earlier failures pass through |
| RequestInfo.HeaderGet | backend/api/dependencies/request_info.py:20-45 | a header is found exactly when some entry has the name, and the value is that of the first such entry |
| RequestInfo.GetClientIp | backend/api/dependencies/request_info.py:6-33 | a non-empty `X-Forwarded-For` gives its first comma-separated hop, stripped; else a non-empty `X-Real-IP`; else the peer host; else "unknown" |
| RequestInfo.ForwardedForFirstHop | backend/api/dependencies/request_info.py:19-22 | whatever address a client puts first in `X-Forwarded-For` is the IP the session is bound to |
| RequestInfo.GetUserAgent | backend/api/dependencies/request_info.py:36-45 | the User-Agent header, or "" when it is missing |
| SessionEntity.Session.constructor | backend/domain/entities/session.py:9-27 | a new session has no id, both timestamps `now`, and the given user, IP, agent and expiry |
| SessionEntity.Session.FromRecord | backend/infrastructure/repositories/session_repository_impl.py:94-100 | `Session(**data)` holds exactly the given field values |
| SessionRepository.KeyInjective | backend/infrastructure/repositories/session_repository_impl.py:27-29 | distinct session ids have distinct record keys |
| SessionRepository.KeySpacesDisjoint | backend/infrastructure/repositories/session_repository_impl.py:27-37 | the record key of a uuid never falls in the `session:user:` index space, and an index key always does |
| SessionRepository.TtlSeconds | backend/infrastructure/repositories/session_repository_impl.py:59-61 | the TTL is positive exactly when the expiry is at least a second away, and Redis then drops the key no later than the expiry |
| SessionRepository.ReadSession | backend/infrastructure/repositories/session_repository_impl.py:81-100 | a missing or expired key reads as none; a live record reads as itself; id bytes under the key are a decode error |
| SessionRepository.ReadByIdentity | backend/infrastructure/repositories/session_repository_impl.py:102-127 | no index entry reads as none; otherwise the session the entry names is read |
| SessionRepository.ReadWellFormed | backend/infrastructure/repositories/session_repository_impl.py:81-100 | in a well-formed store a live record carries the id it was read by, and reading a generated id never fails |
| SessionRepository.ReadByIdentityWellFormed | backend/infrastructure/repositories/session_repository_impl.py:102-127 | in a well-formed store the client lookup never fails |
| SessionRepository.RetiredUnreadable | backend/infrastructure/repositories/session_repository_impl.py:231-243 | a rotated-away id is never read back |
| SessionRepository.LiveSessionUnexpired | backend/infrastructure/repositories/session_repository_impl.py:58-61 | a live record has not passed its own `expires_at` |
| SessionRepository.WriteKeepsInvariant | backend/infrastructure/repositories/session_repository_impl.py:63-77 | the two `SETEX` writes keep the store well formed |
| SessionRepository.RotateKeepsInvariant | backend/infrastructure/repositories/session_repository_impl.py:233-243 | the rotation pipeline keeps the store well formed once the old id is retired |
| SessionRepository.WriteKeepsExpiry | backend/infrastructure/repositories/session_repository_impl.py:59-77 | with the TTL computed from the expiry, Redis never keeps a record past its `expires_at` |
| SessionRepository.WriteThenRead | backend/infrastructure/repositories/session_repository_impl.py:63-127 | what `create` or `update` writes is read back by id and by client until its TTL runs out |
| SessionRepository.RotateEffects | backend/infrastructure/repositories/session_repository_impl.py:233-243 | after rotation the old id reads as absent at every instant; the new record is read by id and by client; every other key is unchanged |
| SessionRepository.DeleteEffects | backend/infrastructure/repositories/session_repository_impl.py:260-267 | after `delete` the record and its index entry read as absent, and every other key is unchanged |
| SessionRepository.RedisSessionRepository.constructor | backend/infrastructure/repositories/session_repository_impl.py:18-25 | an empty, well-formed store |
| SessionRepository.RedisSessionRepository.Create | backend/infrastructure/repositories/session_repository_impl.py:39-79 | the session gets the new id first; an expiry under a second away is refused with the store unchanged; otherwise the record and the index entry are written |
| SessionRepository.RedisSessionRepository.GetById | backend/infrastructure/repositories/session_repository_impl.py:81-100 | it delivers `ReadSession` as a fresh object |
| SessionRepository.RedisSessionRepository.GetByUserIpUserAgent | backend/infrastructure/repositories/session_repository_impl.py:102-127 | it never fails in a well-formed store, and delivers `ReadByIdentity` |
| SessionRepository.RedisSessionRepository.Update | backend/infrastructure/repositories/session_repository_impl.py:129-180 | a missing id, a read error and an absent record each fail with the store unchanged; otherwise `updated_at` becomes `now`; a sub-second expiry is refused; else both keys are rewritten |
| SessionRepository.RedisSessionRepository.Rotate | backend/infrastructure/repositories/session_repository_impl.py:182-245 | the same checks; then a copy with the new id, the stored `created_at` and `updated_at = now` is written with its index entry, and the old record is deleted in one pipeline |
| SessionRepository.RedisSessionRepository.Delete | backend/infrastructure/repositories/session_repository_impl.py:247-269 | a read error passes on; an absent session gives `false` with nothing changed; otherwise the record and its client's index entry are deleted and the answer is `true` |
| SessionRepository.RedisSessionRepository.DeleteExpired | backend/infrastructure/repositories/session_repository_impl.py:271-283 | it removes nothing and returns 0 |
| ObjectIds.ToLower | backend/infrastructure/repositories/user_repository_impl.py:37-55 | a hex digit becomes a lower-case one; lower-case ones are unchanged |
| ObjectIds.Parse | backend/infrastructure/repositories/user_repository_impl.py:37-55 | a text parses exactly when it is 24 hex digits of either case; the id is its lower-case form |
| ObjectIds.ParsePrinted | backend/infrastructure/database/mappers/user_mapper.py:13-34 | a printed id parses back to itself |
| ObjectIds.ParseIgnoresCase | backend/infrastructure/repositories/user_repository_impl.py:37-55 | two texts that differ only in letter case name the same id |
| UserEntity.NameError | backend/domain/entities/user.py:20 | no error exactly when the name has 1..255 characters; the too-short message exactly for the empty name |
| UserEntity.NewUser | backend/domain/entities/user.py:9-34 | a user is built exactly when the name is valid, with no id, active, not an administrator, and both timestamps `now` |
| UserMapper.ToDomain | backend/infrastructure/database/mappers/user_mapper.py:13-25 | the id is printed as text and every other field is copied |
| UserMapper.ToModel | backend/infrastructure/database/mappers/user_mapper.py:27-34 | it succeeds exactly when the name is valid and the id is missing, empty or an object id; with a valid name, any other id gives `InvalidId`; on success the id is parsed and every other field carried over |
| UserMapper.EntityRoundTrip | backend/infrastructure/database/mappers/user_mapper.py:13-34 | `to_domain(to_model(u))` is `u` with its id canonical, so it is `u` itself for a missing or printed id |
| UserMapper.PrintedIdRoundTrip | backend/infrastructure/database/mappers/user_mapper.py:13-34 | a user with a printed id survives the round trip unchanged |
| UserMapper.ModelRoundTrip | backend/infrastructure/database/mappers/user_mapper.py:13-34 | `to_model(to_domain(m))` gives back the document |
| UserRepository.IdIndex | backend/infrastructure/repositories/user_repository_impl.py:46-53 | the position of the document with the id, or a proof that none has it |
| UserRepository.EmailIndex | backend/infrastructure/repositories/user_repository_impl.py:57-70 | the first document with the email, or a proof that none has it |
| UserRepository.UpdateDataMerges | backend/infrastructure/repositories/user_repository_impl.py:104-112 | running the `setattr` loop over `update_data` gives the merged document: id and creation time kept, the other fields from the entity, `updated_at` fresh |
| UserRepository.SetAttrs | backend/infrastructure/repositories/user_repository_impl.py:109-110 | the loop carries out the assignments from left to right |
| UserRepository.ReplaceKeepsIds | backend/infrastructure/repositories/user_repository_impl.py:113-117 | saving a document back in its place keeps ids unique |
| UserRepository.ReplaceKeepsEmails | backend/infrastructure/repositories/user_repository_impl.py:96-100 | saving it with its own email, or one nobody else has, keeps emails unique |
| UserRepository.UserRepositoryImpl.constructor | backend/infrastructure/repositories/user_repository_impl.py:13-14 | an empty collection |
| UserRepository.UserRepositoryImpl.GetById | backend/infrastructure/repositories/user_repository_impl.py:37-55 | a malformed id finds nothing; a well-formed one finds the user exactly when a document has that id |
| UserRepository.UserRepositoryImpl.GetByEmail | backend/infrastructure/repositories/user_repository_impl.py:57-70 | it finds a user exactly when some document has the email, and the user has that email |
| UserRepository.UserRepositoryImpl.Create | backend/infrastructure/repositories/user_repository_impl.py:16-35 | a taken email is refused first; a conversion error passes on; an id in use is a duplicate-key error; otherwise the document is appended with the new id; ids and emails stay unique |
| UserRepository.UserRepositoryImpl.Update | backend/infrastructure/repositories/user_repository_impl.py:72-117 | a missing, malformed or unknown id, and a changed email that is taken, each fail with nothing changed; otherwise the document is merged in place with a fresh `updated_at` |
| UserRepository.StoredFoundById | backend/infrastructure/repositories/user_repository_impl.py:37-55 | every stored user is found by its printed id |
| UserRepository.StoredFoundByEmail | backend/infrastructure/repositories/user_repository_impl.py:57-70 | while emails are unique, every stored user is found by its email |
| Enums.PetStatusFromValue | backend/domain/enums/pet_status.py:9-13 | the member with the value, and one whenever some member has it |
| Enums.AnimalTypeFromValue | backend/domain/enums/animal_type.py:9-10 | the same for `AnimalType` |
| Enums.GenderFromValue | backend/domain/enums/gender.py:9-10 | the same for `Gender` |
| Enums.ValuesNonEmpty | backend/domain/enums/pet_group.py:9-15 | no enumeration value is empty, so a given enum filter is always truthy |
| PetEntity.LengthError | backend/domain/entities/pet.py:45-75 | no error exactly when the optional text is within its cap |
| PetEntity.BirthYearError | backend/domain/entities/pet.py:22-34 | no error exactly when a given year lies in 1900..current year; a year after the current one gives "Birth year cannot be in the future" |
| PetEntity.PetErrors | backend/domain/entities/pet.py:21-75 | the list of violations is empty exactly when every field constraint holds |
| PetEntity.Validate | backend/domain/entities/pet.py:21-75 | it accepts exactly the valid pets, unchanged; a rejection is a validation error with one of the violations |
| PetEntity.NewPet | backend/domain/entities/pet.py:18-111 | a pet with defaults is built exactly when the name has 1..255 characters: no id, healthy, not vaccinated, sterilized or treated, available, no groups, no images, both timestamps `now` |
| PetEntity.ValidLater | backend/domain/entities/pet.py:28-34 | a pet valid in one year stays valid in every later year |
| PetMapper.ToDomain | backend/infrastructure/database/mappers/pet_mapper.py:13-44 | the id is printed; every listed field is copied; `groups` is not listed, so the entity is always in no group |
| PetMapper.Dumped | backend/infrastructure/database/mappers/pet_mapper.py:47-54 | the dumped document has no id |
| PetMapper.ToModel | backend/infrastructure/database/mappers/pet_mapper.py:46-54 | it succeeds exactly when the id is missing, empty or an object id; on success it is the dump of the entity, groups included, with the parsed id |
| PetMapper.EntityRoundTrip | backend/infrastructure/database/mappers/pet_mapper.py:13-54 | `to_domain(to_model(p))` is `p` with its id canonical and its groups lost |
| PetMapper.ModelRoundTrip | backend/infrastructure/database/mappers/pet_mapper.py:13-54 | `to_model(to_domain(m))` is `m` with its groups emptied |
| PetRepository.BuildConditions | backend/infrastructure/repositories/pet_repository_impl.py:69-100 | no filters give no conditions; each enum and boolean filter is a condition exactly as given (`false` included, since no enum value is empty); the search is a condition exactly when it is non-empty |
| PetRepository.ConditionsMeanFilters | backend/infrastructure/repositories/pet_repository_impl.py:69-103 | a document satisfies the built query exactly when it meets every given filter in their plain meaning |
| PetRepository.GroupsIgnored | backend/application/repositories/pet_repository.py:14-25 | the `groups` filter has no effect on the query |
| PetRepository.OrderField | backend/infrastructure/repositories/pet_repository_impl.py:105-123 | the field named by a sort expression, without one leading `-` |
| PetRepository.SortExpr | backend/infrastructure/repositories/pet_repository_impl.py:105-123 | the cursor is sorted exactly when `order_by` names an allowlisted field, optionally with a leading `-`, and then by that expression |
| PetRepository.UpdateDataMerges | backend/infrastructure/repositories/pet_repository_impl.py:198-209 | the `setattr` loop over the non-`None` dump of the entity gives the merged document: id and creation time kept; `None` fields keep the stored value; every other field is taken from the entity; `updated_at` is fresh |
| PetRepository.SetAttrs | backend/infrastructure/repositories/pet_repository_impl.py:208-209 | the loop carries out the assignments from left to right |
| PetRepository.MergeTwice | backend/infrastructure/repositories/pet_repository_impl.py:198-209 | merging the same entity twice is merging it once at the later time |
| PetRepository.IdIndex | backend/infrastructure/repositories/pet_repository_impl.py:194-196 | the position of the document with the id, or a proof that none has it |
| PetRepository.Lookup | backend/infrastructure/repositories/pet_repository_impl.py:32-50 | a text names a document exactly when it is an object id that some document has |
| PetRepository.Without | backend/infrastructure/repositories/pet_repository_impl.py:236 | removing one document shortens the collection by one |
| PetRepository.WithoutEffects | backend/infrastructure/repositories/pet_repository_impl.py:215-237 | removal keeps ids unique, leaves no document with the removed id, and keeps every other document in order |
| PetRepository.ReplaceKeepsLookup | backend/infrastructure/repositories/pet_repository_impl.py:211-213 | saving a document back in place keeps ids unique and every lookup unchanged |
| PetRepository.RemovedNotFound | backend/infrastructure/repositories/pet_repository_impl.py:215-237 | after removal the id names nothing |
| PetRepository.PetRepositoryImpl.constructor | backend/infrastructure/repositories/pet_repository_impl.py:13-14 | an empty collection with the database's regex and sort |
| PetRepository.PetRepositoryImpl.GetById | backend/infrastructure/repositories/pet_repository_impl.py:32-50 | a pet is found exactly when the text names a stored document, and it is that document's entity |
| PetRepository.PetRepositoryImpl.GetList | backend/infrastructure/repositories/pet_repository_impl.py:52-126 | a negative `skip` is refused exactly; otherwise the matching documents in cursor order, paged, as entities |
| PetRepository.PetRepositoryImpl.GetCount | backend/infrastructure/repositories/pet_repository_impl.py:128-172 | the count is the number of stored documents that meet every given filter, so it never exceeds the collection |
| PetRepository.CountMeansFilters | backend/infrastructure/repositories/pet_repository_impl.py:128-172 | the documents the built query keeps are as many as the positions whose document meets the filters in their plain meaning |
| Collections.FilterConcat | backend/infrastructure/repositories/pet_repository_impl.py:171-172 | a query keeps the collection's order: filtering a concatenation concatenates the filtered parts |
| Collections.FilterAll | backend/infrastructure/repositories/pet_repository_impl.py:171-172 | a query every document matches returns the whole collection |
| Collections.FilterCount | backend/infrastructure/repositories/pet_repository_impl.py:171-172 | a query's count is the number of matching positions, each matching document counted once per occurrence |
| PetRepository.PetRepositoryImpl.Create | backend/infrastructure/repositories/pet_repository_impl.py:16-30 | a conversion error passes on; an id in use is a duplicate-key error; otherwise the document is appended and the entity comes back with an id and in no group |
| PetRepository.PetRepositoryImpl.Update | backend/infrastructure/repositories/pet_repository_impl.py:174-213 | a missing, malformed or unknown id each fail with nothing changed; otherwise the document is merged in place |
| PetRepository.PetRepositoryImpl.Delete | backend/infrastructure/repositories/pet_repository_impl.py:215-237 | `true` exactly when the text names a stored document, which is then removed; otherwise nothing changes |
| PetRepository.StoredFoundById | backend/infrastructure/repositories/pet_repository_impl.py:32-50 | every stored pet is found by its printed id |
| PetRepository.ListAgreesWithCount | backend/infrastructure/repositories/pet_repository_impl.py:52-172 | the list holds as many pets as the count leaves after `skip`, cut at the limit (0 means no cut, a negative one counts by its size); a positive limit is never exceeded; every listed pet is a stored document that meets the filters |
| PetRepository.UnsortedListInNaturalOrder | backend/infrastructure/repositories/pet_repository_impl.py:102-126 | without an allowed sort, the page is the matching documents in natural order from `skip` |
| PetRepository.DisallowedOrderIgnored | backend/infrastructure/repositories/pet_repository_impl.py:105-123 | an `order_by` outside the allowlist gives the same listing as none |
| PetRepository.FullPageListsEveryMatch | backend/infrastructure/repositories/pet_repository_impl.py:52-126 | a page from 0 at least as long as the count lists every pet that meets the filters |
| PetList.Execute | backend/application/use_cases/pet_list.py:45-76 | a negative skip, a non-positive limit and a limit over 100 each give exactly their error, in that order; a success echoes skip and limit and holds the repository's list and count for the same filters |
| PetList.PageWithinCount | backend/application/use_cases/pet_list.py:9-76 | a listing holds `limit` pets, or fewer when the count runs out after `skip`, never more than 100, each a stored pet that meets the filters |
| PetList.PastTheEndIsEmpty | backend/application/use_cases/pet_list.py:45-76 | a skip at or past the count gives an empty page |
| PetDetail.Execute | backend/application/use_cases/pet_detail.py:20-32 | an empty id is refused exactly; otherwise the stored pet the id names, if any |
| PetDetail.StoredPetFound | backend/application/use_cases/pet_detail.py:20-32 | every stored pet is found by its id, and it comes back in no group |
| PetDetail.MalformedIdNotFound | backend/application/use_cases/pet_detail.py:20-32 | a non-empty text that is not an object id gives "not found", not an error |
| PetCreate.Execute | backend/application/use_cases/pet_create.py:18-30 | the pet is stored with any id cleared, under the new id; the result has that id and no groups, and is found again by it |
| PetUpdate.Execute | backend/application/use_cases/pet_update.py:18-41 | a missing or empty id is refused; an id naming no stored pet (malformed ones included) gives "not found" with nothing changed; otherwise the document is merged in place and the result is found again by its id |
| PetUpdate.UpdatedPetFields | backend/infrastructure/repositories/pet_repository_impl.py:198-213 | after an update the id and creation time are kept, `updated_at` is `now` and the pet is in no group; name, type, status, health flag and images come from the entity; an optional field (birth year, health notes) takes the entity's value when given and keeps the stored one when `None` |
| PetDelete.Execute | backend/application/use_cases/pet_delete.py:17-40 | an empty id is refused; otherwise the answer is whether the id named a stored pet, which is then removed and no longer found; otherwise nothing changes |
| FileStorage.Fetch | backend/infrastructure/services/s3_file_storage.py:75-86 | an object is fetched exactly when its key is stored, with its content, and with its content type or `application/octet-stream` |
| FileStorage.FetchAfterPut | backend/application/services/file_storage.py:9-36 | after an upload the key fetches the uploaded content |
| FileStorage.FetchAfterRemove | backend/application/services/file_storage.py:27-47 | after a delete the key fetches nothing |
| FileStorage.ObjectStore.constructor | backend/infrastructure/services/s3_file_storage.py:15-31 | an empty store |
| FileStorage.ObjectStore.Upload | backend/infrastructure/services/s3_file_storage.py:59-73 | the object is stored under the key, which is returned |
| FileStorage.ObjectStore.Delete | backend/infrastructure/services/s3_file_storage.py:88-97 | `true` exactly when the key was stored; the key is removed |
| UploadImage.Extension | backend/application/use_cases/upload_image.py:8-13 | the extension of an allowed type from the table, and `bin` for any other |
| UploadImage.ExtensionPlain | backend/application/use_cases/upload_image.py:8-13 | every extension is non-empty, with no slash and no dot |
| UploadImage.NameHasNoPairs | backend/application/use_cases/upload_image.py:24-25 | the `<hex>.<ext>` name has no doubled slash or dot and does not start with a slash |
| UploadImage.KeyShape | backend/application/use_cases/upload_image.py:22-26 | with a non-empty trimmed prefix and subpath without `//`, the key is exactly `prefix/subpath/<hex>.<ext>` and starts with `prefix/` |
| UploadImage.JoinedKeyUnchanged | backend/application/use_cases/upload_image.py:26 | `replace("//", "/")` leaves such a joined key unchanged |
| UploadImage.KeyHasNoDots | backend/application/use_cases/upload_image.py:22-26 | such a key has no `..` when neither part has one |
| UploadImage.PlainPartsKey | backend/application/use_cases/upload_image.py:22-26 | a prefix and a subpath without slashes are joined as they are |
| UploadImage.EmptyPrefixLeadingSlash | backend/application/use_cases/upload_image.py:22-26 | a prefix that trims to nothing leaves a key starting with `/` |
| UploadImage.Execute | backend/application/use_cases/upload_image.py:28-56 | a type outside the allowed list is refused first, then content over the maximum (exactly the maximum is accepted); a refusal stores nothing; otherwise the object is stored under the built key, which is returned |
| GetImage.PathToKey | backend/application/use_cases/get_image.py:13-23 | leading slashes are dropped; a path under `prefix/` is kept; any other is put under the prefix, or kept when the trimmed prefix is empty |
| GetImage.PathToKeyIdempotent | backend/application/use_cases/get_image.py:13-23 | a key lies under the prefix when the prefix is non-empty, and mapping a key again gives the same key |
| GetImage.KeyUnderPrefix | backend/application/use_cases/get_image.py:13-23 | a key already under `prefix/` is taken as it is |
| GetImage.LeadingSlashIgnored | backend/application/use_cases/get_image.py:19 | a leading slash does not change the key |
| GetImage.PathFormsAgree | backend/application/use_cases/get_image.py:13-23 | the served path, the same with a leading slash, and the stored key all name one object |
| GetImage.Execute | backend/application/use_cases/get_image.py:25-35 | an object is returned exactly when the path's key is stored, with its content |
| DeleteImage.Execute | backend/application/use_cases/delete_image.py:20-30 | `true` exactly when the path's key was stored; that key is removed |
| UploadsRoutes.DotDotUnsafe | backend/api/routes/uploads.py:20-22 | a path with `..` anywhere is unsafe |
| UploadsRoutes.LeadingSlashUnsafe | backend/api/routes/uploads.py:20-22 | a path starting with `/` is unsafe |
| UploadsRoutes.Rejection | backend/api/routes/uploads.py:32-41 | an error response with the status and detail given and no headers |
| UploadsRoutes.GetImageRoute | backend/api/routes/uploads.py:25-43 | an unsafe path gets 400 before the store is read; a missing object gets 404; otherwise 200 with the fetched object |
| UploadsRoutes.ContentTypeOrDefault | backend/api/routes/uploads.py:53 | the upload's content type, or `application/octet-stream` when it is missing or empty |
| UploadsRoutes.UploadImageRoute | backend/api/routes/uploads.py:46-66 | the admin dependency decides first; a refused upload is a 400 with the reason and stores nothing; otherwise 201 with the key under `pets`, and the store updated |
| UploadsRoutes.DeleteImageRoute | backend/api/routes/uploads.py:69-86 | the admin dependency decides first; an unsafe path is a 400 and a missing object a 404, both changing nothing; otherwise 204 with the object removed |
| UploadsRoutes.JoinedKeySafe | backend/api/routes/uploads.py:20-22 | a key `p/q/<hex>.<ext>` is a safe path when neither part has `..` or an outer slash, and `p` does not start with whitespace |
| UploadsRoutes.UploadedKeySafe | backend/application/use_cases/upload_image.py:22-26 | when the trimmed prefix and subpath are non-empty and have no `//` or `..`, and the prefix does not start with whitespace, the `image_url` of an upload is a safe path that maps to itself |
| UploadsRoutes.UploadedImageServed | backend/api/routes/uploads.py:25-43 | the GET route serves an uploaded image back under the `image_url` it was given |
| UploadsRoutes.EmptyPrefixUploadNotServed | backend/api/routes/uploads.py:20-43 | with a prefix that trims to nothing, the `image_url` an upload returns is refused by the GET route as unsafe |
| PyStr.LStrip | backend/application/use_cases/get_image.py:19 | `lstrip` removes the longest leading run of the given characters |
| PyStr.RStrip | backend/application/use_cases/upload_image.py:23 | `rstrip` removes the longest trailing run |
| PyStr.Strip | backend/application/use_cases/upload_image.py:23-26 | `strip` leaves no given character at either end, and is empty exactly when every character is a given one |
| PyStr.ReplaceAbsent | backend/application/use_cases/upload_image.py:26 | replacing a pattern that does not occur changes nothing |
| PyStr.SplitFirst | backend/api/dependencies/request_info.py:22 | the text before the first separator |
| PyStr.NatToDecimal | backend/config.py:50 | `str(n)` is a non-empty string of digits that starts with `0` only for 0 |
| PyStr.DecimalRoundTrip | backend/config.py:50 | the digits of `str(n)` read back as `n` |
| PyStr.ParseInt | backend/infrastructure/services/jwt_service.py:76-79 | `int()` of a text reads a number only from a text that is not blank once stripped |
| PyStr.ParseIntPrinted | backend/infrastructure/services/jwt_service.py:76-79 | `int()` reads the printed form of any integer back as that integer |

## Left out

- Signing and encoding of JWTs: a token is its claims with the key and algorithm, or unparseable text. HMAC and base64 are not modelled, and neither are the exact texts of python-jose's error messages; those are approximate.
- Password hashing: bcrypt is the parameter `verifyPassword`.
- JwtService.DecodeToken: `int()` of a text is modelled for ASCII digits with an optional sign and surrounding whitespace. Underscores between digits and non-ASCII digits, which Python also accepts, read as no number. A float claim stands for a finite number: the `ValueError` and `OverflowError` that `int()` raises on `NaN` and `Infinity` are not modelled.
- JwtService.AccessTokenRoundTrip and JwtService.RefreshTokenRoundTrip: these cover token data without `nbf`, `aud` or `at_hash` and with a text `sub` and `jti` when present, which is what the use cases pass. Other data is covered by `JwtService.DecodeToken` itself and by `AudienceRefused`, `NotYetValidRefused`, `NullExpEscapes` and `TextExpAccepted`.
- SessionRepository.ReadSession: the text of the JSON decode error (`NotJsonMessage`) is approximate. Python's text depends on the bytes: a session id starting with a digit gives "Extra data: line 1 column 2 (char 1)" rather than "Expecting value". Only the fact that a `ValueError` is raised is modelled exactly.
- PetMapper.InvalidIdMessage and UserMapper.InvalidIdMessage: bson quotes the text with `%r`, and the model quotes it with `'` on both sides. The two differ for a text containing a quote or a backslash, where `repr` switches to `"` or escapes characters.
- Randomness, the clock and hashing:
  - `uuid4` is an oracle parameter `newId` (session ids) or `hex` (upload names), constrained to the right shape;
  - the ObjectId generator is `newOid`;
  - `datetime.now` is `now`;
  - SHA-256 is the class constant `digest`.
- The Redis client and connection: only the effect of `GET`, `SETEX` and `DEL` on the key space is modelled. The rotation pipeline is modelled as atomic.
- MongoDB query evaluation:
  - `$regex` is the database's own test (`regexMatch`);
  - `sort` is `sortCursor`, assumed to permute;
  - the Beanie and Motor calls are not modelled.
  - BSON truncates datetimes to milliseconds; this is not modelled.
- `PetModel`'s source file is not part of this model: the document is assumed to hold exactly the entity's fields.
- The pydantic `EmailStr` check, and the exact texts of pydantic's validation messages: those are approximate.
- The text of the duplicate-key error is approximate.
- `HTTPBearer` parsing of the Authorization header: the dependencies receive what verification returned, and whether credentials were sent.
- The routes other than `/uploads` (`auth.py`, `pets.py`), the DI container, the application factory, the admin script, `auth_example.py`: they are wiring, not core.
- Concurrency: every operation is modelled as one atomic step.
- S3 and MinIO I/O (bucket creation, client errors other than "not found"): `FileStorage` is an in-memory map.
- FileStorage.ObjectStore.Get: a read that states nothing of its own; it is `Fetch` on the current map, which carries the contract.
- Config.DefaultMongodbUrl: states the default URL as `"mongodb://" + HostPart(...)` with port text `27017`, not as one string literal, because literal equalities on long strings are too costly for the verifier.
- Concrete key examples (`uploads/pets/<hex>.png`) are not proved for literal strings; the generic lemmas `UploadImage.KeyShape` and `GetImage.PathFormsAgree` cover them.

## Notes on the source

Where the specification and the code disagree, the model follows the code. These are the places where the code is surprising:

- `auth.py:119-121` calls the login use case with four arguments, but `auth_login.py:50` takes two. The model follows the use case.
- Login creates no session and puts no `session_id` in its tokens (`auth_login.py:76-79`). So a login refresh token is always refused by refresh with "Token missing session ID" (`AuthFlows.LoginRefreshTokenRefused`).
- `container.py:59` builds the refresh use case with two of its three collaborators.
- `app.py` imports `get_redis_client` from the container, which does not define it.
- Login reports an inactive account with its own message, "User account is inactive". This differs from the message for a wrong password, so it reveals which emails have accounts.
- python-jose refuses a token only when `exp < now`, so a token is still valid during its `exp` second (`JwtService.AccessTokenRoundTrip`).
- A correctly signed token whose `exp`, `iat` or `nbf` is null, a list or an object makes python-jose's `int()` raise `TypeError`. That is no `JWTError`, so `decode_token` lets it escape as an unhandled error instead of a token error (`JwtService.NullExpEscapes`).
- Verification does not check `type`, so a refresh token is accepted as an access token (`AuthFlows.RefreshTokenPassesAccessCheck`).
- `PetMapper.to_domain` does not map `groups`. Every pet read back is in no group, even one stored with groups; the result of create and of update is likewise in no group (`PetMapper.ToDomain`, `PetDetail.StoredPetFound`).
- The pet update use case looks the pet up first and reports "not found" for a malformed id. So the repository's "Invalid pet ID" error is never reached through it (`PetUpdate.Execute`).
- With an empty `uploads_key_prefix` the upload key starts with `/`, and the GET route refuses that `image_url` as unsafe (`UploadsRoutes.EmptyPrefixUploadNotServed`).
- The session expiry test in refresh (`auth_refresh.py:110-113`) can only fire when Redis keeps a record past its `expires_at`. In a store written only by this repository that cannot happen (`SessionRepository.LiveSessionUnexpired`).
