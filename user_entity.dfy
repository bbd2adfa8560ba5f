/** The user entity: an account that can log in, possibly as an administrator. */
module UserEntity {
  import opened Wrappers
  import opened Exceptions

  datatype User = User(
    /** Set by the store; `None` until the user has been saved. */
    id: Option<string>,
    email: string,
    passwordHash: string,
    name: string,
    isAdmin: bool,
    isActive: bool,
    createdAt: int,
    updatedAt: int)

  const NameMaxLength: nat := 255
  const TooShort: string := "String should have at least 1 character"
  const TooLong: string := "String should have at most 255 characters"

  /** The length constraint on `name`: between 1 and 255 characters. */
  predicate ValidName(name: string) {
    1 <= |name| <= NameMaxLength
  }

  /** The validation error for a name, if any. */
  function NameError(name: string): (e: Option<string>)
    ensures e.None? <==> ValidName(name)
    ensures e == Some(TooShort) <==> name == []
  {
    if |name| < 1 then Some(TooShort)
    else if |name| > NameMaxLength then Some(TooLong)
    else None
  }

  /**
   * `User(email=…, password_hash=…, name=…)`: email and password hash are
   * required, the name is validated, the id is unset, the account is active
   * and not an administrator, and both timestamps default to `now`.
   */
  function NewUser(email: string, passwordHash: string, name: string, now: int): (r: Result<User, Exception>)
    ensures r.Success? <==> ValidName(name)
    ensures r.Failure? ==> r.error == ValueError(NameError(name).value)
    ensures r.Success? ==> r.value.id.None? && !r.value.isAdmin && r.value.isActive
    ensures r.Success? ==> r.value.email == email && r.value.passwordHash == passwordHash && r.value.name == name
    ensures r.Success? ==> r.value.createdAt == now && r.value.updatedAt == now
  {
    match NameError(name)
    case Some(m) => Failure(ValueError(m))
    case None => Success(User(None, email, passwordHash, name, false, true, now, now))
  }
}
