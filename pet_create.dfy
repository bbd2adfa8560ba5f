/** `PetCreateUseCase`: a new pet, whatever id it came with. */
module PetCreate {
  import opened Wrappers
  import opened Exceptions
  import opened ObjectIds
  import opened PetMapper
  import opened PetEntity
  import opened PetRepository

  /**
   * `execute(pet)`: the id is cleared so that the store assigns a fresh one;
   * so creation always succeeds, and appends the entity's fields under the
   * new id, groups included.
   */
  method Execute(repo: PetRepositoryImpl, pet: Pet, newOid: ObjectId) returns (r: Result<Pet, Exception>)
    requires repo.Valid()
    requires forall j :: 0 <= j < |repo.docs| ==> repo.docs[j].id != Some(newOid)
    modifies repo
    ensures repo.Valid()
    ensures repo.docs == old(repo.docs) + [Dumped(pet).(id := Some(newOid))]
    ensures r == Success(ToDomain(Dumped(pet).(id := Some(newOid))))
    ensures r.value.id == Some(newOid) && r.value.groups == []
    ensures repo.GetById(newOid) == Some(r.value)
  {
    var cleared := pet.(id := None);
    assert Dumped(cleared) == Dumped(pet);
    r := repo.Create(cleared, newOid);
    StoredFoundById(repo, |repo.docs| - 1);
  }
}
