/**
 * `UserRepositoryImpl`: the users collection, kept in insertion order, which
 * is the order in which an unsorted query meets the documents.
 */
module UserRepository {
  import opened Wrappers
  import opened Exceptions
  import opened ObjectIds
  import opened Collections
  import opened UserEntity
  import opened UserMapper

  const IdRequired: string := "User ID is required for update"
  const DuplicateIdMessage: string := "E11000 duplicate key error collection: users index: _id_"

  function EmailExists(email: string): string { "User with email " + email + " already exists" }

  function InvalidUserId(id: string): string { "Invalid user ID: " + id }

  function UserNotFound(id: string): string { "User with ID " + id + " not found" }

  /** Where the document with this id sits. */
  function IdIndex(docs: seq<UserModel>, oid: ObjectId): (r: Option<nat>)
    ensures r.Some? ==> r.value < |docs| && docs[r.value].id == Some(oid)
    ensures r.None? ==> forall j :: 0 <= j < |docs| ==> docs[j].id != Some(oid)
  {
    FirstIndex(docs, (d: UserModel) => d.id == Some(oid))
  }

  /** Where `find_one({"email": email})` finds its document: the first one with that email. */
  function EmailIndex(docs: seq<UserModel>, email: string): (r: Option<nat>)
    ensures r.Some? ==> r.value < |docs| && docs[r.value].email == email && forall j :: 0 <= j < r.value ==> docs[j].email != email
    ensures r.None? ==> forall j :: 0 <= j < |docs| ==> docs[j].email != email
  {
    FirstIndex(docs, (d: UserModel) => d.email == email)
  }

  predicate EmailTaken(docs: seq<UserModel>, email: string) {
    exists j :: 0 <= j < |docs| && docs[j].email == email
  }

  /** No two documents share an email. */
  predicate UniqueEmails(docs: seq<UserModel>) {
    forall i, j :: 0 <= i < j < |docs| ==> docs[i].email != docs[j].email
  }

  /** Every stored document has an id, and no two share one. */
  predicate IdsUnique(docs: seq<UserModel>) {
    (forall i :: 0 <= i < |docs| ==> docs[i].id.Some?) &&
    (forall i, j :: 0 <= i < j < |docs| ==> docs[i].id != docs[j].id)
  }

  /** The id `insert()` leaves on a document: its own, or the one the database generates. */
  function WithId(m: UserModel, newOid: ObjectId): UserModel {
    if m.id.Some? then m else m.(id := Some(newOid))
  }

  /** One entry of `update_data`: a field name with its new value. */
  datatype UserField =
    | Email(email: string)
    | PasswordHash(passwordHash: string)
    | Name(name: string)
    | IsAdmin(isAdmin: bool)
    | IsActive(isActive: bool)
    | UpdatedAt(updatedAt: int)

  /** `setattr(model, key, value)`. */
  function SetAttr(m: UserModel, f: UserField): UserModel {
    match f
    case Email(v) => m.(email := v)
    case PasswordHash(v) => m.(passwordHash := v)
    case Name(v) => m.(name := v)
    case IsAdmin(v) => m.(isAdmin := v)
    case IsActive(v) => m.(isActive := v)
    case UpdatedAt(v) => m.(updatedAt := v)
  }

  /** The assignments of `data` carried out from left to right. */
  function ApplyAll(m: UserModel, data: seq<UserField>): UserModel
    decreases |data|
  {
    if data == [] then m else ApplyAll(SetAttr(m, data[0]), data[1..])
  }

  /**
   * `update_data`: the entity dumped without `id` and `created_at` (no field
   * of a user is `None`, so `exclude_none` drops nothing), with `updated_at`
   * replaced by the fresh timestamp of the stored document.
   */
  function UpdateData(u: User, now: int): seq<UserField> {
    [Email(u.email), PasswordHash(u.passwordHash), Name(u.name), IsAdmin(u.isAdmin), IsActive(u.isActive), UpdatedAt(now)]
  }

  /** The document an update should leave: id and creation time kept, every other field from the entity, `updated_at` refreshed. */
  function Merged(existing: UserModel, u: User, now: int): UserModel {
    UserModel(existing.id, u.email, u.passwordHash, u.name, u.isAdmin, u.isActive, existing.createdAt, now)
  }

  /** Carrying out `update_data` gives the merged document. */
  lemma UpdateDataMerges(existing: UserModel, u: User, now: int)
    ensures ApplyAll(existing, UpdateData(u, now)) == Merged(existing, u, now)
  {
    var d := UpdateData(u, now);
    var m := existing;
    var i := 0;
    while i < |d|
      invariant 0 <= i <= |d| && ApplyAll(m, d[i..]) == ApplyAll(existing, d)
      invariant m.id == existing.id && m.createdAt == existing.createdAt
      invariant i > 0 ==> m.email == u.email
      invariant i > 1 ==> m.passwordHash == u.passwordHash
      invariant i > 2 ==> m.name == u.name
      invariant i > 3 ==> m.isAdmin == u.isAdmin
      invariant i > 4 ==> m.isActive == u.isActive
      invariant i > 5 ==> m.updatedAt == now
    {
      assert d[i..][1..] == d[i + 1..];
      m := SetAttr(m, d[i]);
      i := i + 1;
    }
    assert d[i..] == [];
  }

  /** The `for key, value in update_data.items(): setattr(...)` loop. */
  method SetAttrs(m: UserModel, data: seq<UserField>) returns (r: UserModel)
    ensures r == ApplyAll(m, data)
  {
    r := m;
    var i := 0;
    while i < |data|
      invariant 0 <= i <= |data|
      invariant ApplyAll(r, data[i..]) == ApplyAll(m, data)
    {
      assert data[i..][1..] == data[i + 1..];
      r := SetAttr(r, data[i]);
      i := i + 1;
    }
  }

  /** Replacing one document by another with the same id keeps the ids unique. */
  lemma ReplaceKeepsIds(docs: seq<UserModel>, i: nat, m: UserModel)
    requires IdsUnique(docs) && i < |docs| && m.id == docs[i].id
    ensures IdsUnique(docs[i := m])
  {
  }

  /** Replacing a document by one with its own email, or with an email nobody else has, keeps emails unique. */
  lemma ReplaceKeepsEmails(docs: seq<UserModel>, i: nat, m: UserModel)
    requires UniqueEmails(docs) && i < |docs|
    requires m.email == docs[i].email || !EmailTaken(docs, m.email)
    ensures UniqueEmails(docs[i := m])
  {
    var d := docs[i := m];
    forall a, b | 0 <= a < b < |d| ensures d[a].email != d[b].email {
      if a == i {
        assert docs[b].email == d[b].email;
      } else if b == i {
        assert docs[a].email == d[a].email;
      }
    }
  }

  class UserRepositoryImpl {
    var docs: seq<UserModel>

    ghost predicate Valid()
      reads this
    {
      IdsUnique(docs)
    }

    constructor ()
      ensures Valid() && docs == []
    {
      docs := [];
    }

    /** `get_by_id`: `None` for a text that is not an object id and for an id nobody has. */
    function GetById(userId: string): (r: Option<User>)
      reads this
      ensures Parse(userId).None? ==> r.None?
      ensures Parse(userId).Some? ==> (r.None? <==> forall j :: 0 <= j < |docs| ==> docs[j].id != Parse(userId))
      ensures r.Some? ==> exists j :: 0 <= j < |docs| && docs[j].id == Parse(userId) && r.value == ToDomain(docs[j])
    {
      match Parse(userId)
      case None => None
      case Some(oid) =>
        match IdIndex(docs, oid)
        case None => None
        case Some(i) => Some(ToDomain(docs[i]))
    }

    /** `get_by_email`: a user whose email is exactly `email`, or `None` when there is none. */
    function GetByEmail(email: string): (r: Option<User>)
      reads this
      ensures r.None? <==> !EmailTaken(docs, email)
      ensures r.Some? ==> r.value.email == email && exists j :: 0 <= j < |docs| && r.value == ToDomain(docs[j])
    {
      match EmailIndex(docs, email)
      case None => None
      case Some(i) => Some(ToDomain(docs[i]))
    }

    /**
     * `create`: refused when the email is taken; otherwise the entity is
     * converted and inserted, getting the generated id `newOid` unless it
     * brings its own, which must not be in use.
     */
    method Create(user: User, newOid: ObjectId) returns (r: Result<User, Exception>)
      requires Valid()
      requires forall j :: 0 <= j < |docs| ==> docs[j].id != Some(newOid)
      modifies this
      ensures Valid()
      ensures old(UniqueEmails(docs)) ==> UniqueEmails(docs)
      ensures r.Failure? ==> docs == old(docs)
      ensures EmailTaken(old(docs), user.email) ==> r == Failure(ValueError(EmailExists(user.email)))
      ensures !EmailTaken(old(docs), user.email) && ToModel(user).Failure? ==> r == Failure(ToModel(user).error)
      ensures !EmailTaken(old(docs), user.email) && ToModel(user).Success? ==>
        var m := WithId(ToModel(user).value, newOid);
        if exists j :: 0 <= j < |old(docs)| && old(docs)[j].id == m.id then r == Failure(DuplicateKeyError(DuplicateIdMessage))
        else r == Success(ToDomain(m)) && docs == old(docs) + [m]
      ensures r.Success? ==> r.value.id.Some? && r.value.email == user.email
    {
      if EmailIndex(docs, user.email).Some? {
        return Failure(ValueError(EmailExists(user.email)));
      }
      var model := ToModel(user);
      if model.Failure? {
        return Failure(model.error);
      }
      var m := WithId(model.value, newOid);
      if IdIndex(docs, m.id.value).Some? {
        return Failure(DuplicateKeyError(DuplicateIdMessage));
      }
      docs := docs + [m];
      r := Success(ToDomain(m));
    }

    /**
     * `update`: the id must be present, be an object id and name a stored
     * user, and a changed email must be free; then the stored document gets
     * every field of the entity but `id` and `created_at`, and a fresh
     * `updated_at`, and is saved back in its place.
     */
    method Update(user: User, now: int) returns (r: Result<User, Exception>)
      requires Valid()
      modifies this
      ensures Valid()
      ensures old(UniqueEmails(docs)) ==> UniqueEmails(docs)
      ensures r.Failure? ==> docs == old(docs)
      ensures user.id.None? || user.id.value == [] ==> r == Failure(ValueError(IdRequired))
      ensures user.id.Some? && user.id.value != [] && Parse(user.id.value).None? ==> r == Failure(ValueError(InvalidUserId(user.id.value)))
      ensures user.id.Some? && Parse(user.id.value).Some? && IdIndex(old(docs), Parse(user.id.value).value).None? ==>
        r == Failure(ValueError(UserNotFound(user.id.value)))
      ensures user.id.Some? && Parse(user.id.value).Some? && IdIndex(old(docs), Parse(user.id.value).value).Some? ==>
        var i := IdIndex(old(docs), Parse(user.id.value).value).value;
        if user.email != old(docs)[i].email && EmailTaken(old(docs), user.email) then
          r == Failure(ValueError(EmailExists(user.email)))
        else
          docs == old(docs)[i := Merged(old(docs)[i], user, now)] && r == Success(ToDomain(docs[i]))
      ensures r.Success? ==> r.value.id == Parse(user.id.value) && r.value.updatedAt == now && r.value.email == user.email
      ensures r.Success? ==> exists j :: 0 <= j < |old(docs)| && old(docs)[j].id == Parse(user.id.value) && r.value.createdAt == old(docs)[j].createdAt
    {
      if user.id.None? || user.id.value == [] {
        return Failure(ValueError(IdRequired));
      }
      var objectId := Parse(user.id.value);
      if objectId.None? {
        return Failure(ValueError(InvalidUserId(user.id.value)));
      }
      var found := IdIndex(docs, objectId.value);
      if found.None? {
        return Failure(ValueError(UserNotFound(user.id.value)));
      }
      var i := found.value;
      var existing := docs[i];
      if user.email != existing.email && EmailIndex(docs, user.email).Some? {
        return Failure(ValueError(EmailExists(user.email)));
      }
      existing := existing.(updatedAt := now);
      var updated := SetAttrs(existing, UpdateData(user, existing.updatedAt));
      UpdateDataMerges(existing, user, now);
      ReplaceKeepsIds(docs, i, updated);
      if UniqueEmails(docs) {
        ReplaceKeepsEmails(docs, i, updated);
      }
      docs := docs[i := updated];
      r := Success(ToDomain(updated));
    }
  }

  /** Every stored user is found again by the printed form of its id. */
  lemma StoredFoundById(repo: UserRepositoryImpl, j: nat)
    requires repo.Valid() && j < |repo.docs|
    ensures repo.GetById(repo.docs[j].id.value) == Some(ToDomain(repo.docs[j]))
  {
    ParsePrinted(repo.docs[j].id.value);
  }

  /** While emails are unique, every stored user is found again by its email. */
  lemma StoredFoundByEmail(repo: UserRepositoryImpl, j: nat)
    requires UniqueEmails(repo.docs) && j < |repo.docs|
    ensures repo.GetByEmail(repo.docs[j].email) == Some(ToDomain(repo.docs[j]))
  {
  }
}
