/**
 * The Redis session store. Two key spaces share one Redis database: the
 * session record under `session:<id>` and an index entry under
 * `session:user:<sha256(user_id:ip:user_agent)>` holding the id of the
 * session last written for that client. Both are written with `SETEX`, so
 * Redis drops them when their time to live runs out.
 */
module SessionRepository {
  import opened Wrappers
  import opened Exceptions
  import opened SessionEntity
  import PyStr
  import ObjectIds
  import Config

  /** What a key holds: a JSON session record, or the bytes of a session id. */
  datatype RedisValue = SessionJson(record: SessionRecord) | SessionIdBytes(sessionId: string)

  /** A stored value and the instant (microseconds) after which Redis no longer returns it. */
  datatype Entry = Entry(value: RedisValue, expireAt: int)

  type Table = map<string, Entry>

  const KeyPrefix: string := "session:"
  const IndexPrefix: string := "session:user:"

  const TtlMessage: string := "Session expiration time must be in the future"
  /** The payload of the `JSONDecodeError` raised when a key holds id bytes instead of JSON. */
  const NotJsonMessage: string := "Expecting value"

  /** `_get_key`. */
  function Key(sessionId: string): string { KeyPrefix + sessionId }

  /** `_get_user_session_key`; `digest` is the hex SHA-256 of its argument. */
  function UserSessionKey(digest: string -> string, userId: string, ipAddress: string, userAgent: string): string {
    IndexPrefix + digest(userId + ":" + ipAddress + ":" + userAgent)
  }

  predicate IsIndexKey(k: string) { PyStr.StartsWith(k, IndexPrefix) }

  /** `str(uuid4())`: 8-4-4-4-12 lower-case hex digits, version 4, RFC 4122 variant. */
  predicate IsUuidText(s: string) {
    && |s| == 36
    && (forall i :: 0 <= i < 36 ==> if i in {8, 13, 18, 23} then s[i] == '-' else ObjectIds.IsLowerHex(s[i]))
    && s[14] == '4'
    && s[19] in {'8', '9', 'a', 'b'}
  }

  /** Distinct ids have distinct record keys. */
  lemma KeyInjective(a: string, b: string)
    ensures Key(a) == Key(b) ==> a == b
  {
    if Key(a) == Key(b) {
      assert a == Key(a)[|KeyPrefix|..];
    }
  }

  /** The record key of a generated id never falls in the index key space, and an index key always does. */
  lemma KeySpacesDisjoint(id: string, digest: string -> string, userId: string, ipAddress: string, userAgent: string)
    requires IsUuidText(id)
    ensures !IsIndexKey(Key(id))
    ensures IsIndexKey(UserSessionKey(digest, userId, ipAddress, userAgent))
    ensures Key(id) != UserSessionKey(digest, userId, ipAddress, userAgent)
  {
    assert Key(id)[8] == id[0];
    assert IndexPrefix[8] == 'u';
    var k := UserSessionKey(digest, userId, ipAddress, userAgent);
    assert k[..|IndexPrefix|] == IndexPrefix;
  }

  // ---- Redis commands ----

  /** `GET key` at instant `now`. */
  function Get(t: Table, key: string, now: int): Option<RedisValue> {
    if key in t && now <= t[key].expireAt then Some(t[key].value) else None
  }

  /** `SETEX key ttl value` at instant `now`. */
  function SetEx(t: Table, key: string, ttl: int, v: RedisValue, now: int): Table {
    t[key := Entry(v, now + ttl * Config.MicrosPerSecond)]
  }

  /** `DEL key`. */
  function Del(t: Table, key: string): Table { t - {key} }

  /** `int((expires_at - now).total_seconds())`: whole seconds left, truncated toward zero. */
  function TtlSeconds(expiresAt: int, now: int): (ttl: int)
    ensures ttl > 0 <==> expiresAt - now >= Config.MicrosPerSecond
    ensures ttl > 0 ==> expiresAt - Config.MicrosPerSecond < now + ttl * Config.MicrosPerSecond <= expiresAt
  {
    var d := expiresAt - now;
    if d >= 0 then d / Config.MicrosPerSecond else -((-d) / Config.MicrosPerSecond)
  }

  // ---- the repository's reads and writes on the table ----

  /** `get_by_id`: the record under the id's key, none when the key is absent or expired, a decode error when it holds id bytes. */
  function ReadSession(t: Table, sessionId: string, now: int): (r: Result<Option<SessionRecord>, Exception>)
    ensures r.Failure? <==> Get(t, Key(sessionId), now).Some? && Get(t, Key(sessionId), now).value.SessionIdBytes?
    ensures r == Success(None) <==> Get(t, Key(sessionId), now).None?
    ensures r.Success? && r.value.Some? ==> Get(t, Key(sessionId), now) == Some(SessionJson(r.value.value))
  {
    match Get(t, Key(sessionId), now)
    case None => Success(None)
    case Some(SessionJson(rec)) => Success(Some(rec))
    case Some(SessionIdBytes(_)) => Failure(ValueError(NotJsonMessage))
  }

  /**
   * `get_by_user_ip_user_agent`: follow the client's index entry to its
   * session. (An index key holding JSON does not occur in a well-formed
   * table; its decoded text would name no session.)
   */
  function ReadByIdentity(t: Table, digest: string -> string, userId: string, ipAddress: string, userAgent: string, now: int): (r: Result<Option<SessionRecord>, Exception>)
    ensures Get(t, UserSessionKey(digest, userId, ipAddress, userAgent), now).None? ==> r == Success(None)
    ensures (var v := Get(t, UserSessionKey(digest, userId, ipAddress, userAgent), now);
             v.Some? && v.value.SessionIdBytes? ==> r == ReadSession(t, v.value.sessionId, now))
  {
    match Get(t, UserSessionKey(digest, userId, ipAddress, userAgent), now)
    case None => Success(None)
    case Some(SessionIdBytes(id)) => ReadSession(t, id, now)
    case Some(SessionJson(_)) => Success(None)
  }

  /** The two `SETEX` writes of `create` and `update`: the record, then the client's index entry. */
  function WriteSession(t: Table, digest: string -> string, rec: SessionRecord, ttl: int, now: int): Table
    requires rec.id.Some?
  {
    var t1 := SetEx(t, Key(rec.id.value), ttl, SessionJson(rec), now);
    SetEx(t1, UserSessionKey(digest, rec.userId, rec.ipAddress, rec.userAgent), ttl, SessionIdBytes(rec.id.value), now)
  }

  /** The `MULTI`/`EXEC` pipeline of `rotate`: write the rotated record and its index entry, delete the old record. */
  function RotateTable(t: Table, digest: string -> string, rotated: SessionRecord, oldId: string, ttl: int, now: int): Table
    requires rotated.id.Some?
  {
    Del(WriteSession(t, digest, rotated, ttl, now), Key(oldId))
  }

  /** The two `DEL`s of `delete`: the record and the index entry of the stored session's client. */
  function DeleteTable(t: Table, digest: string -> string, sessionId: string, stored: SessionRecord): Table {
    Del(Del(t, Key(sessionId)), UserSessionKey(digest, stored.userId, stored.ipAddress, stored.userAgent))
  }

  // ---- invariants of a table written only by this repository ----

  /** What an entry may hold: records sit under the key of their own generated id, index entries hold a generated id. */
  ghost predicate EntryFits(k: string, v: RedisValue, issued: set<string>) {
    match v
    case SessionJson(rec) => rec.id.Some? && rec.id.value in issued && k == Key(rec.id.value)
    case SessionIdBytes(id) => IsIndexKey(k) && id in issued
  }

  /**
   * `issued` holds every id the generator has handed out and `retired` the
   * ids that rotation has invalidated; a retired id's record key is gone
   * for good.
   */
  ghost predicate Invariant(t: Table, issued: set<string>, retired: set<string>) {
    && (forall id | id in issued :: IsUuidText(id))
    && retired <= issued
    && (forall id | id in retired :: Key(id) !in t)
    && (forall k | k in t :: EntryFits(k, t[k].value, issued))
  }

  /** Redis drops every record no later than the session's own `expires_at`. */
  ghost predicate ExpiryConsistent(t: Table) {
    forall k | k in t && t[k].value.SessionJson? :: t[k].expireAt <= t[k].value.record.expiresAt
  }

  /**
   * In a well-formed table a live record carries the id it was read by, and
   * reading a generated id never fails to decode (only an id of the form
   * `user:<hash>` reaches an index entry).
   */
  lemma ReadWellFormed(t: Table, issued: set<string>, retired: set<string>, sessionId: string, now: int)
    requires Invariant(t, issued, retired)
    ensures var r := ReadSession(t, sessionId, now);
      && (r.Failure? ==> IsIndexKey(Key(sessionId)) && sessionId !in issued)
      && (r.Success? && r.value.Some? ==> r.value.value.id == Some(sessionId) && sessionId in issued && sessionId !in retired)
  {
    var k := Key(sessionId);
    if k in t && now <= t[k].expireAt {
      assert EntryFits(k, t[k].value, issued);
      if t[k].value.SessionJson? {
        KeyInjective(sessionId, t[k].value.record.id.value);
      } else if sessionId in issued {
        KeySpacesDisjoint(sessionId, x => x, "", "", "");
      }
    }
  }

  /** `get_by_user_ip_user_agent` never meets a decode error in a well-formed table. */
  lemma ReadByIdentityWellFormed(t: Table, issued: set<string>, retired: set<string>, digest: string -> string, userId: string, ipAddress: string, userAgent: string, now: int)
    requires Invariant(t, issued, retired)
    ensures ReadByIdentity(t, digest, userId, ipAddress, userAgent, now).Success?
  {
    var v := Get(t, UserSessionKey(digest, userId, ipAddress, userAgent), now);
    if v.Some? && v.value.SessionIdBytes? {
      ReadWellFormed(t, issued, retired, v.value.sessionId, now);
    }
  }

  /** A retired id can never be read back: its old refresh tokens stay useless. */
  lemma RetiredUnreadable(t: Table, issued: set<string>, retired: set<string>, sessionId: string, now: int)
    requires Invariant(t, issued, retired) && sessionId in retired
    ensures ReadSession(t, sessionId, now) == Success(None)
  {
  }

  /** A live record has not passed its `expires_at`, so the refresh flow's own expiry test never fires. */
  lemma LiveSessionUnexpired(t: Table, sessionId: string, now: int)
    requires ExpiryConsistent(t)
    requires ReadSession(t, sessionId, now).Success? && ReadSession(t, sessionId, now).value.Some?
    ensures now <= ReadSession(t, sessionId, now).value.value.expiresAt
  {
    assert t[Key(sessionId)].value.SessionJson?;
  }

  /** The writes of `create` and `update` keep a table well formed when the id is a live or a fresh generated one. */
  lemma WriteKeepsInvariant(t: Table, issued: set<string>, retired: set<string>, digest: string -> string, rec: SessionRecord, ttl: int, now: int)
    requires Invariant(t, issued, retired)
    requires rec.id.Some? && rec.id.value in issued && rec.id.value !in retired
    ensures Invariant(WriteSession(t, digest, rec, ttl, now), issued, retired)
  {
    var id := rec.id.value;
    var idx := UserSessionKey(digest, rec.userId, rec.ipAddress, rec.userAgent);
    var t2 := WriteSession(t, digest, rec, ttl, now);
    KeySpacesDisjoint(id, digest, rec.userId, rec.ipAddress, rec.userAgent);
    forall r | r in retired ensures Key(r) !in t2 {
      KeyInjective(r, id);
      KeySpacesDisjoint(r, digest, rec.userId, rec.ipAddress, rec.userAgent);
    }
  }

  /** ... and so does the pipeline of `rotate`, once the old id joins the retired ones. */
  lemma RotateKeepsInvariant(t: Table, issued: set<string>, retired: set<string>, digest: string -> string, rotated: SessionRecord, oldId: string, ttl: int, now: int)
    requires Invariant(t, issued, retired)
    requires rotated.id.Some? && rotated.id.value in issued && rotated.id.value !in retired
    requires oldId in issued
    ensures Invariant(RotateTable(t, digest, rotated, oldId, ttl, now), issued, retired + {oldId})
  {
    WriteKeepsInvariant(t, issued, retired, digest, rotated, ttl, now);
  }

  /** The writes keep every record's Redis expiry within its `expires_at` when the TTL is computed from it. */
  lemma WriteKeepsExpiry(t: Table, digest: string -> string, rec: SessionRecord, now: int)
    requires ExpiryConsistent(t) && rec.id.Some? && TtlSeconds(rec.expiresAt, now) > 0
    requires IsUuidText(rec.id.value)
    ensures ExpiryConsistent(WriteSession(t, digest, rec, TtlSeconds(rec.expiresAt, now), now))
  {
    KeySpacesDisjoint(rec.id.value, digest, rec.userId, rec.ipAddress, rec.userAgent);
  }

  /** Whatever `create` or `update` writes is read back, by id and by client, until its TTL runs out. */
  lemma {:induction false} WriteThenRead(t: Table, digest: string -> string, rec: SessionRecord, ttl: int, now: int, later: int)
    requires rec.id.Some? && IsUuidText(rec.id.value)
    requires now <= later <= now + ttl * Config.MicrosPerSecond
    ensures var t2 := WriteSession(t, digest, rec, ttl, now);
      && ReadSession(t2, rec.id.value, later) == Success(Some(rec))
      && ReadByIdentity(t2, digest, rec.userId, rec.ipAddress, rec.userAgent, later) == Success(Some(rec))
  {
    KeySpacesDisjoint(rec.id.value, digest, rec.userId, rec.ipAddress, rec.userAgent);
  }

  /**
   * After `rotate` the old id reads as absent at every instant, the rotated
   * record is read by its new id and through the client's index entry, and
   * every other key is as it was.
   */
  lemma {:induction false} RotateEffects(t: Table, digest: string -> string, rotated: SessionRecord, oldId: string, ttl: int, now: int, later: int, anyTime: int)
    requires rotated.id.Some? && IsUuidText(rotated.id.value) && IsUuidText(oldId) && rotated.id.value != oldId
    requires now <= later <= now + ttl * Config.MicrosPerSecond
    ensures var t2 := RotateTable(t, digest, rotated, oldId, ttl, now);
      && ReadSession(t2, oldId, anyTime) == Success(None)
      && ReadSession(t2, rotated.id.value, later) == Success(Some(rotated))
      && ReadByIdentity(t2, digest, rotated.userId, rotated.ipAddress, rotated.userAgent, later) == Success(Some(rotated))
      && (forall k :: k in t && k != Key(oldId) && k != Key(rotated.id.value)
            && k != UserSessionKey(digest, rotated.userId, rotated.ipAddress, rotated.userAgent)
            ==> k in t2 && t2[k] == t[k])
  {
    var newId := rotated.id.value;
    KeySpacesDisjoint(newId, digest, rotated.userId, rotated.ipAddress, rotated.userAgent);
    KeySpacesDisjoint(oldId, digest, rotated.userId, rotated.ipAddress, rotated.userAgent);
    KeyInjective(newId, oldId);
  }

  /** After `delete` the record and its client's index entry are gone; nothing else changes. */
  lemma DeleteEffects(t: Table, digest: string -> string, sessionId: string, stored: SessionRecord, anyTime: int)
    ensures var t2 := DeleteTable(t, digest, sessionId, stored);
      && ReadSession(t2, sessionId, anyTime) == Success(None)
      && ReadByIdentity(t2, digest, stored.userId, stored.ipAddress, stored.userAgent, anyTime) == Success(None)
      && (forall k :: k in t && k != Key(sessionId) && k != UserSessionKey(digest, stored.userId, stored.ipAddress, stored.userAgent)
            ==> k in t2 && t2[k] == t[k])
  {
  }

  /** `RedisSessionRepository`. */
  class RedisSessionRepository {
    var store: Table
    /** The hex SHA-256 digest used for index keys. */
    const digest: string -> string
    ghost var issued: set<string>
    ghost var retired: set<string>

    ghost predicate Valid()
      reads this
    {
      Invariant(store, issued, retired)
    }

    constructor (digest: string -> string)
      ensures Valid() && store == map[] && this.digest == digest
    {
      store := map[];
      this.digest := digest;
      issued := {};
      retired := {};
    }

    /**
     * `create`: gives the session a new id first, then refuses an expiry
     * less than one second away, then writes the record and the index entry.
     */
    method Create(session: Session, now: int, newId: string) returns (r: Result<Session, Exception>)
      requires Valid() && IsUuidText(newId) && newId !in issued
      modifies this`store, this`issued, session`id
      ensures Valid()
      ensures issued == old(issued) + {newId}
      ensures session.Record() == old(session.Record()).(id := Some(newId))
      ensures var ttl := TtlSeconds(session.expiresAt, now);
        if ttl <= 0 then r == Failure(ValueError(TtlMessage)) && store == old(store)
        else r == Success(session) && store == WriteSession(old(store), digest, session.Record(), ttl, now)
      ensures old(ExpiryConsistent(store)) ==> ExpiryConsistent(store)
    {
      issued := issued + {newId};
      session.id := Some(newId);
      var ttl := TtlSeconds(session.expiresAt, now);
      if ttl <= 0 {
        return Failure(ValueError(TtlMessage));
      }
      WriteKeepsInvariant(store, issued, retired, digest, session.Record(), ttl, now);
      if ExpiryConsistent(store) {
        WriteKeepsExpiry(store, digest, session.Record(), now);
      }
      store := SetEx(store, Key(newId), ttl, SessionJson(session.Record()), now);
      store := SetEx(store, UserSessionKey(digest, session.userId, session.ipAddress, session.userAgent), ttl, SessionIdBytes(newId), now);
      r := Success(session);
    }

    /** `get_by_id`: a new session object for the stored record. */
    method GetById(sessionId: string, now: int) returns (r: Result<Option<Session>, Exception>)
      ensures Delivers(r, ReadSession(store, sessionId, now))
      ensures r.Success? && r.value.Some? ==> fresh(r.value.value)
    {
      var read := ReadSession(store, sessionId, now);
      if read.Failure? {
        r := Failure(read.error);
      } else if read.value.None? {
        r := Success(None);
      } else {
        var s := new Session.FromRecord(read.value.value);
        r := Success(Some(s));
      }
    }

    /** `get_by_user_ip_user_agent`; it cannot fail in a well-formed store. */
    method GetByUserIpUserAgent(userId: string, ipAddress: string, userAgent: string, now: int) returns (r: Result<Option<Session>, Exception>)
      requires Valid()
      ensures r.Success?
      ensures Delivers(r, ReadByIdentity(store, digest, userId, ipAddress, userAgent, now))
      ensures r.value.Some? ==> fresh(r.value.value)
    {
      ReadByIdentityWellFormed(store, issued, retired, digest, userId, ipAddress, userAgent, now);
      var read := ReadByIdentity(store, digest, userId, ipAddress, userAgent, now);
      if read.value.None? {
        r := Success(None);
      } else {
        var s := new Session.FromRecord(read.value.value);
        r := Success(Some(s));
      }
    }

    /**
     * `update`: the session must have an id and a live record; its
     * `updated_at` becomes `now` before the expiry is checked, and the
     * record and index entry are rewritten from the object's fields.
     */
    method Update(session: Session, now: int) returns (r: Result<Session, Exception>)
      requires Valid()
      modifies this`store, session`updatedAt
      ensures Valid()
      ensures var id := old(session.id);
        var read := ReadSession(old(store), if id.Some? then id.value else "", now);
        if id.None? || id.value == "" then
          r == Failure(ValueError("Session ID is required for update")) && store == old(store) && session.updatedAt == old(session.updatedAt)
        else if read.Failure? then
          r == Failure(read.error) && store == old(store) && session.updatedAt == old(session.updatedAt)
        else if read.value.None? then
          r == Failure(ValueError("Session with ID " + id.value + " not found")) && store == old(store) && session.updatedAt == old(session.updatedAt)
        else
          && session.updatedAt == now
          && var ttl := TtlSeconds(session.expiresAt, now);
             if ttl <= 0 then r == Failure(ValueError(TtlMessage)) && store == old(store)
             else r == Success(session) && store == WriteSession(old(store), digest, session.Record(), ttl, now)
      ensures old(ExpiryConsistent(store)) ==> ExpiryConsistent(store)
    {
      if session.id.None? || session.id.value == "" {
        return Failure(ValueError("Session ID is required for update"));
      }
      var id := session.id.value;
      var existing := GetById(id, now);
      if existing.Failure? {
        return Failure(existing.error);
      }
      if existing.value.None? {
        return Failure(ValueError("Session with ID " + id + " not found"));
      }
      ReadWellFormed(store, issued, retired, id, now);
      session.updatedAt := now;
      var ttl := TtlSeconds(session.expiresAt, now);
      if ttl <= 0 {
        return Failure(ValueError(TtlMessage));
      }
      WriteKeepsInvariant(store, issued, retired, digest, session.Record(), ttl, now);
      if ExpiryConsistent(store) {
        WriteKeepsExpiry(store, digest, session.Record(), now);
      }
      store := SetEx(store, Key(id), ttl, SessionJson(session.Record()), now);
      store := SetEx(store, UserSessionKey(digest, session.userId, session.ipAddress, session.userAgent), ttl, SessionIdBytes(id), now);
      r := Success(session);
    }

    /**
     * `rotate`: the session must have an id and a live record. A copy gets a
     * new id, keeps the stored `created_at` and is stamped `now`; if its
     * expiry is at least a second away, one atomic pipeline writes it and
     * its index entry and deletes the old record.
     */
    method Rotate(session: Session, now: int, newId: string) returns (r: Result<Session, Exception>)
      requires Valid() && IsUuidText(newId) && newId !in issued
      modifies this`store, this`issued, this`retired
      ensures Valid()
      ensures var id := session.id;
        var read := ReadSession(old(store), if id.Some? then id.value else "", now);
        if id.None? || id.value == "" then
          r == Failure(ValueError("Session ID is required for rotation")) && store == old(store) && issued == old(issued) && retired == old(retired)
        else if read.Failure? then
          r == Failure(read.error) && store == old(store) && issued == old(issued) && retired == old(retired)
        else if read.value.None? then
          r == Failure(ValueError("Session with ID " + id.value + " not found")) && store == old(store) && issued == old(issued) && retired == old(retired)
        else
          && issued == old(issued) + {newId}
          && var rotated := session.Record().(id := Some(newId), createdAt := read.value.value.createdAt, updatedAt := now);
             var ttl := TtlSeconds(rotated.expiresAt, now);
             if ttl <= 0 then
               r == Failure(ValueError(TtlMessage)) && store == old(store) && retired == old(retired)
             else
               && r.Success? && fresh(r.value) && r.value.Record() == rotated
               && store == RotateTable(old(store), digest, rotated, id.value, ttl, now)
               && retired == old(retired) + {id.value}
      ensures old(ExpiryConsistent(store)) ==> ExpiryConsistent(store)
    {
      if session.id.None? || session.id.value == "" {
        return Failure(ValueError("Session ID is required for rotation"));
      }
      var oldId := session.id.value;
      var existing := GetById(oldId, now);
      if existing.Failure? {
        return Failure(existing.error);
      }
      if existing.value.None? {
        return Failure(ValueError("Session with ID " + oldId + " not found"));
      }
      ReadWellFormed(store, issued, retired, oldId, now);
      issued := issued + {newId};
      var record := session.Record().(id := Some(newId), createdAt := existing.value.value.createdAt, updatedAt := now);
      var ttl := TtlSeconds(record.expiresAt, now);
      if ttl <= 0 {
        return Failure(ValueError(TtlMessage));
      }
      RotateKeepsInvariant(store, issued, retired, digest, record, oldId, ttl, now);
      if ExpiryConsistent(store) {
        WriteKeepsExpiry(store, digest, record, now);
      }
      store := RotateTable(store, digest, record, oldId, ttl, now);
      retired := retired + {oldId};
      var rotated := new Session.FromRecord(record);
      r := Success(rotated);
    }

    /** `delete`: removes the record and its client's index entry; false when there is no live record. */
    method Delete(sessionId: string, now: int) returns (r: Result<bool, Exception>)
      requires Valid()
      modifies this`store
      ensures Valid()
      ensures var read := ReadSession(old(store), sessionId, now);
        match read
        case Failure(e) => r == Failure(e) && store == old(store)
        case Success(None) => r == Success(false) && store == old(store)
        case Success(Some(rec)) => r == Success(true) && store == DeleteTable(old(store), digest, sessionId, rec)
      ensures old(ExpiryConsistent(store)) ==> ExpiryConsistent(store)
    {
      var session := GetById(sessionId, now);
      if session.Failure? {
        return Failure(session.error);
      }
      if session.value.None? {
        return Success(false);
      }
      var s := session.value.value;
      store := Del(store, Key(sessionId));
      store := Del(store, UserSessionKey(digest, s.userId, s.ipAddress, s.userAgent));
      r := Success(true);
    }

    /** `delete_expired`: Redis expires keys itself, so nothing is removed and the count is 0. */
    method DeleteExpired() returns (count: int)
      ensures count == 0
    {
      count := 0;
    }
  }

  /** The session object handed back matches the record read: same failure, same absence, or equal field values. */
  predicate Delivers(r: Result<Option<Session>, Exception>, read: Result<Option<SessionRecord>, Exception>)
    reads if r.Success? && r.value.Some? then {r.value.value} else {}
  {
    match read
    case Failure(e) => r == Failure(e)
    case Success(None) => r == Success(None)
    case Success(Some(rec)) => r.Success? && r.value.Some? && r.value.value.Record() == rec
  }
}
