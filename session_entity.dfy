/** The session entity: one login of one user from one client. */
module SessionEntity {
  import opened Wrappers

  /** The field values of a session, as `model_dump()` gives them and as they are stored. */
  datatype SessionRecord = SessionRecord(
    id: Option<string>,
    userId: string,
    ipAddress: string,
    userAgent: string,
    createdAt: int,
    updatedAt: int,
    expiresAt: int)

  /** A session object; the repository and the refresh use case assign its fields in place. */
  class Session {
    var id: Option<string>
    var userId: string
    var ipAddress: string
    var userAgent: string
    var createdAt: int
    var updatedAt: int
    var expiresAt: int

    /** The current field values. */
    function Record(): SessionRecord
      reads this
    {
      SessionRecord(id, userId, ipAddress, userAgent, createdAt, updatedAt, expiresAt)
    }

    /** `Session(user_id=…, ip_address=…, user_agent=…, expires_at=…)`: no id yet, both timestamps default to `now`. */
    constructor (userId: string, ipAddress: string, userAgent: string, expiresAt: int, now: int)
      ensures Record() == SessionRecord(None, userId, ipAddress, userAgent, now, now, expiresAt)
    {
      this.id := None;
      this.userId := userId;
      this.ipAddress := ipAddress;
      this.userAgent := userAgent;
      this.createdAt := now;
      this.updatedAt := now;
      this.expiresAt := expiresAt;
    }

    /** `Session(**data)`: a new object holding the given field values. */
    constructor FromRecord(r: SessionRecord)
      ensures Record() == r
    {
      id := r.id;
      userId := r.userId;
      ipAddress := r.ipAddress;
      userAgent := r.userAgent;
      createdAt := r.createdAt;
      updatedAt := r.updatedAt;
      expiresAt := r.expiresAt;
    }
  }
}
