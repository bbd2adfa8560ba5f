/**
 * `UserModel`, the stored document, and `UserMapper`, which converts between
 * it and the `User` entity.
 */
module UserMapper {
  import opened Wrappers
  import opened Exceptions
  import opened ObjectIds
  import opened UserEntity

  /** The stored document: the entity's fields with the id as an `ObjectId`. */
  datatype UserModel = UserModel(
    id: Option<ObjectId>,
    email: string,
    passwordHash: string,
    name: string,
    isAdmin: bool,
    isActive: bool,
    createdAt: int,
    updatedAt: int)

  /** The message of `InvalidId` for a text that is not an object id. */
  function InvalidIdMessage(text: string): string {
    "'" + text + "' is not a valid ObjectId, it must be a 12-byte input or a 24-character hex string"
  }

  /** `UserMapper.to_domain`: the id printed as text when there is one, every other field copied. */
  function ToDomain(m: UserModel): (u: User)
    ensures u.id.Some? <==> m.id.Some?
    ensures m.id.Some? ==> u.id.value == m.id.value
    ensures u.email == m.email && u.passwordHash == m.passwordHash && u.name == m.name
    ensures u.isAdmin == m.isAdmin && u.isActive == m.isActive
    ensures u.createdAt == m.createdAt && u.updatedAt == m.updatedAt
  {
    User(if m.id.Some? then Some(m.id.value) else None,
         m.email, m.passwordHash, m.name, m.isAdmin, m.isActive, m.createdAt, m.updatedAt)
  }

  /**
   * `UserMapper.to_model`: every field but the id goes through `UserModel(...)`,
   * which validates the name again; a non-empty entity id must then be an
   * object id, and an empty or missing one leaves the document without id.
   */
  function ToModel(u: User): (r: Result<UserModel, Exception>)
    ensures r.Success? <==> ValidName(u.name) && (u.id.None? || u.id.value == [] || Parse(u.id.value).Some?)
    ensures r.Failure? && ValidName(u.name) ==> r.error == InvalidId(InvalidIdMessage(u.id.value))
    ensures r.Success? ==> r.value.id == (if u.id.Some? && u.id.value != [] then Parse(u.id.value) else None)
    ensures r.Success? ==> r.value.email == u.email && r.value.passwordHash == u.passwordHash && r.value.name == u.name
    ensures r.Success? ==> r.value.isAdmin == u.isAdmin && r.value.isActive == u.isActive
    ensures r.Success? ==> r.value.createdAt == u.createdAt && r.value.updatedAt == u.updatedAt
  {
    if !ValidName(u.name) then Failure(ValueError(NameError(u.name).value))
    else
      var model := UserModel(None, u.email, u.passwordHash, u.name, u.isAdmin, u.isActive, u.createdAt, u.updatedAt);
      if u.id.Some? && u.id.value != [] then
        match Parse(u.id.value)
        case None => Failure(InvalidId(InvalidIdMessage(u.id.value)))
        case Some(oid) => Success(model.(id := Some(oid)))
      else Success(model)
  }

  /**
   * `to_domain(to_model(u))` is `u` up to the spelling of its id; so it is
   * exactly `u` when the id is missing or already in printed form.
   */
  lemma EntityRoundTrip(u: User)
    requires ToModel(u).Success?
    ensures ToDomain(ToModel(u).value) == u.(id := CanonicalId(u.id))
    ensures u.id.None? || (u.id.value != [] && Parse(u.id.value) == Some(u.id.value)) ==> ToDomain(ToModel(u).value) == u
  {
  }

  /** A printed id survives the round trip unchanged. */
  lemma PrintedIdRoundTrip(u: User, oid: ObjectId)
    requires u.id == Some(oid) && ValidName(u.name)
    ensures ToModel(u).Success? && ToDomain(ToModel(u).value) == u
  {
    ParsePrinted(oid);
  }

  /** `to_model(to_domain(m))` gives back the document itself. */
  lemma ModelRoundTrip(m: UserModel)
    requires ValidName(m.name)
    ensures ToModel(ToDomain(m)) == Success(m)
  {
    if m.id.Some? {
      ParsePrinted(m.id.value);
    }
  }
}
