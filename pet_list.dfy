/** `PetListUseCase`: a page of pets with the number of all that meet the filters. */
module PetList {
  import opened Wrappers
  import opened Exceptions
  import opened Collections
  import opened PetMapper
  import opened PetEntity
  import opened PetRepository

  const NegativeSkip: string := "skip must be non-negative"
  const LimitNotPositive: string := "limit must be positive"
  const LimitTooLarge: string := "limit cannot exceed 100"
  const MaxLimit: int := 100

  /** `PetListResult`: the page, the count of every match, and the pagination it was asked for. */
  datatype PetListResult = PetListResult(pets: seq<Pet>, totalCount: nat, skip: nat, limit: int)

  /**
   * `execute(skip, limit, filters)`: `skip` must not be negative and `limit`
   * must lie in 1..100, checked in that order; the page and the count are
   * then taken with the same filters.
   */
  function Execute(repo: PetRepositoryImpl, skip: int, limit: int, filters: Option<PetFilters>): (r: Result<PetListResult, Exception>)
    reads repo
    ensures skip < 0 <==> r == Failure(ValueError(NegativeSkip))
    ensures 0 <= skip && limit <= 0 <==> r == Failure(ValueError(LimitNotPositive))
    ensures 0 <= skip && limit > MaxLimit <==> r == Failure(ValueError(LimitTooLarge))
    ensures r.Success? <==> 0 <= skip && 1 <= limit <= MaxLimit
    ensures r.Success? ==> r.value.skip == skip && r.value.limit == limit
    ensures r.Success? ==> r.value.totalCount == repo.GetCount(filters)
    ensures r.Success? ==> r.value.pets == repo.GetList(skip, limit, filters).value
  {
    if skip < 0 then Failure(ValueError(NegativeSkip))
    else if limit <= 0 then Failure(ValueError(LimitNotPositive))
    else if limit > MaxLimit then Failure(ValueError(LimitTooLarge))
    else
      var pets := repo.GetList(skip, limit, filters).value;
      Success(PetListResult(pets, repo.GetCount(filters), skip, limit))
  }

  /**
   * A successful listing holds `limit` pets, or fewer when the count runs
   * out after `skip`, and every listed pet is a stored pet that meets the
   * filters.
   */
  lemma PageWithinCount(repo: PetRepositoryImpl, skip: int, limit: int, filters: Option<PetFilters>)
    requires repo.Valid()
    requires Execute(repo, skip, limit, filters).Success?
    ensures var res := Execute(repo, skip, limit, filters).value;
      && |res.pets| == Min(if res.skip <= res.totalCount then res.totalCount - res.skip else 0, res.limit)
      && |res.pets| <= MaxLimit
    ensures var res := Execute(repo, skip, limit, filters).value;
      forall p :: p in res.pets ==>
        exists m :: m in repo.docs && MatchesFilters(m, filters, repo.regexMatch) && p == ToDomain(m)
  {
    ListAgreesWithCount(repo, skip, limit, filters);
  }

  /** Paging through with a growing `skip` ends in an empty page once `skip` reaches the count. */
  lemma PastTheEndIsEmpty(repo: PetRepositoryImpl, skip: int, limit: int, filters: Option<PetFilters>)
    requires repo.Valid()
    requires Execute(repo, skip, limit, filters).Success?
    requires skip >= repo.GetCount(filters)
    ensures Execute(repo, skip, limit, filters).value.pets == []
  {
    ListAgreesWithCount(repo, skip, limit, filters);
  }
}
