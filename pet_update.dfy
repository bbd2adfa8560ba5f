/** `PetUpdateUseCase`: overwrite the stored pet with the entity's fields. */
module PetUpdate {
  import opened Wrappers
  import opened Exceptions
  import opened ObjectIds
  import opened PetMapper
  import opened PetEntity
  import opened PetRepository

  /**
   * `execute(pet)`: the entity must carry a non-empty id that names a stored
   * pet (a text that is not an object id names none); then the stored
   * document is merged with the entity, and the merged pet is returned.
   */
  method Execute(repo: PetRepositoryImpl, pet: Pet, now: int) returns (r: Result<Pet, Exception>)
    requires repo.Valid()
    modifies repo
    ensures repo.Valid()
    ensures r.Failure? ==> repo.docs == old(repo.docs)
    ensures pet.id.None? || pet.id.value == [] ==> r == Failure(ValueError(IdRequired))
    ensures pet.id.Some? && pet.id.value != [] && Lookup(old(repo.docs), pet.id.value).None? ==>
      r == Failure(ValueError(PetNotFound(pet.id.value)))
    ensures pet.id.Some? && Lookup(old(repo.docs), pet.id.value).Some? ==>
      var i := Lookup(old(repo.docs), pet.id.value).value;
      repo.docs == old(repo.docs)[i := Merged(old(repo.docs)[i], pet, now)] && r == Success(ToDomain(repo.docs[i]))
    ensures r.Success? ==> repo.GetById(pet.id.value) == Some(r.value)
  {
    if pet.id.None? || pet.id.value == [] {
      return Failure(ValueError(IdRequired));
    }
    var existing := repo.GetById(pet.id.value);
    if existing.None? {
      return Failure(ValueError(PetNotFound(pet.id.value)));
    }
    ghost var before := repo.docs;
    ghost var i := Lookup(before, pet.id.value).value;
    r := repo.Update(pet, now);
    ReplaceKeepsLookup(before, i, Merged(before[i], pet, now), pet.id.value);
  }

  /**
   * What an update leaves for a pet: every field the entity gives, the
   * stored value of every optional field it leaves out, the stored id and
   * creation time, the update time, and no groups once read back.
   */
  lemma UpdatedPetFields(existing: PetModel, pet: Pet, now: int)
    ensures var q := ToDomain(Merged(existing, pet, now));
      && q.id == ToDomain(existing).id && q.createdAt == existing.createdAt && q.updatedAt == now
      && q.name == pet.name && q.animalType == pet.animalType && q.status == pet.status
      && q.isHealthy == pet.isHealthy && q.imageUrls == pet.imageUrls && q.groups == []
      && (pet.birthYear.Some? ==> q.birthYear == pet.birthYear)
      && (pet.birthYear.None? ==> q.birthYear == existing.birthYear)
      && (pet.healthNotes.Some? ==> q.healthNotes == pet.healthNotes)
      && (pet.healthNotes.None? ==> q.healthNotes == existing.healthNotes)
  {
  }
}
