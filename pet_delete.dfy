/** `PetDeleteUseCase`: remove a pet by its id. */
module PetDelete {
  import opened Wrappers
  import opened Exceptions
  import opened PetMapper
  import opened PetRepository
  import PetDetail

  /**
   * `execute(pet_id)`: an empty id is refused; an id naming no stored pet
   * gives `false` and changes nothing; otherwise that pet is removed and
   * the answer is `true`.
   */
  method Execute(repo: PetRepositoryImpl, petId: string) returns (r: Result<bool, Exception>)
    requires repo.Valid()
    modifies repo
    ensures repo.Valid()
    ensures petId == [] ==> r == Failure(ValueError(PetDetail.PetIdRequired))
    ensures petId != [] ==> r == Success(Lookup(old(repo.docs), petId).Some?)
    ensures r != Success(true) ==> repo.docs == old(repo.docs)
    ensures r == Success(true) ==>
      repo.docs == Without(old(repo.docs), Lookup(old(repo.docs), petId).value) && repo.GetById(petId).None?
  {
    if petId == [] {
      return Failure(ValueError(PetDetail.PetIdRequired));
    }
    var existing := repo.GetById(petId);
    if existing.None? {
      return Success(false);
    }
    ghost var before := repo.docs;
    var deleted := repo.Delete(petId);
    RemovedNotFound(before, petId);
    r := Success(deleted);
  }
}
