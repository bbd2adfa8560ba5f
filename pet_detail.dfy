/** `PetDetailUseCase`: one pet by its id. */
module PetDetail {
  import opened Wrappers
  import opened Exceptions
  import opened ObjectIds
  import opened PetMapper
  import opened PetEntity
  import opened PetRepository

  const PetIdRequired: string := "pet_id is required"

  /** `execute(pet_id)`: an empty id is refused; otherwise the pet the id names, if any. */
  function Execute(repo: PetRepositoryImpl, petId: string): (r: Result<Option<Pet>, Exception>)
    reads repo
    ensures petId == [] <==> r == Failure(ValueError(PetIdRequired))
    ensures r.Success? ==> (r.value.Some? <==> Lookup(repo.docs, petId).Some?)
    ensures r.Success? && r.value.Some? ==> r.value.value == ToDomain(repo.docs[Lookup(repo.docs, petId).value])
  {
    if petId == [] then Failure(ValueError(PetIdRequired))
    else Success(repo.GetById(petId))
  }

  /** Every stored pet is found by the id it was listed with, and comes back in no group. */
  lemma StoredPetFound(repo: PetRepositoryImpl, j: nat)
    requires repo.Valid() && j < |repo.docs|
    ensures var r := Execute(repo, repo.docs[j].id.value);
      r == Success(Some(ToDomain(repo.docs[j]))) && r.value.value.groups == []
  {
    StoredFoundById(repo, j);
  }

  /** A text that is not an object id names no pet: it is not an error, just not found. */
  lemma MalformedIdNotFound(repo: PetRepositoryImpl, petId: string)
    requires petId != [] && Parse(petId).None?
    ensures Execute(repo, petId) == Success(None)
  {
  }
}
