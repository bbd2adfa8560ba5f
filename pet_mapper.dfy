/**
 * `PetModel`, the stored document, and `PetMapper`, which converts between
 * it and the `Pet` entity.
 */
module PetMapper {
  import opened Wrappers
  import opened Exceptions
  import opened ObjectIds
  import opened Enums
  import opened PetEntity

  /** The stored document: the entity's fields, `groups` included, with the id as an `ObjectId`. */
  datatype PetModel = PetModel(
    id: Option<ObjectId>,
    name: string,
    birthYear: Option<int>,
    animalType: AnimalType,
    gender: Option<Gender>,
    appearanceText: Option<string>,
    coatColor: Option<string>,
    coatType: Option<string>,
    adultWeight: Option<string>,
    adultHeight: Option<string>,
    characterAndBehaviorText: Option<string>,
    isHealthy: bool,
    isVaccinated: bool,
    isSterilized: bool,
    isParasiteTreated: bool,
    healthNotes: Option<string>,
    registrationNumber: Option<string>,
    tagNumber: Option<string>,
    tagColor: Option<string>,
    admissionText: Option<string>,
    admissionDate: Option<int>,
    capturePlace: Option<string>,
    captureCondition: Option<string>,
    additionalConditions: Option<string>,
    groups: seq<PetGroup>,
    status: PetStatus,
    createdAt: int,
    updatedAt: int,
    imageUrls: seq<string>)

  /** The message of `InvalidId` for a text that is not an object id. */
  function InvalidIdMessage(text: string): string {
    "'" + text + "' is not a valid ObjectId, it must be a 12-byte input or a 24-character hex string"
  }

  /**
   * `PetMapper.to_domain`: the id printed as text when there is one, and
   * every listed field copied. `groups` is not among them, so the entity
   * always comes out in no group.
   */
  function ToDomain(m: PetModel): (p: Pet)
    ensures p.id.Some? <==> m.id.Some?
    ensures m.id.Some? ==> p.id.value == m.id.value
    ensures p.groups == []
    ensures p.name == m.name && p.birthYear == m.birthYear && p.animalType == m.animalType && p.gender == m.gender
    ensures p.appearanceText == m.appearanceText && p.coatColor == m.coatColor && p.coatType == m.coatType
    ensures p.adultWeight == m.adultWeight && p.adultHeight == m.adultHeight
    ensures p.characterAndBehaviorText == m.characterAndBehaviorText
    ensures p.isHealthy == m.isHealthy && p.isVaccinated == m.isVaccinated
    ensures p.isSterilized == m.isSterilized && p.isParasiteTreated == m.isParasiteTreated
    ensures p.healthNotes == m.healthNotes && p.registrationNumber == m.registrationNumber
    ensures p.tagNumber == m.tagNumber && p.tagColor == m.tagColor
    ensures p.admissionText == m.admissionText && p.admissionDate == m.admissionDate
    ensures p.capturePlace == m.capturePlace && p.captureCondition == m.captureCondition
    ensures p.additionalConditions == m.additionalConditions
    ensures p.status == m.status && p.createdAt == m.createdAt && p.updatedAt == m.updatedAt
    ensures p.imageUrls == m.imageUrls
  {
    Pet(if m.id.Some? then Some(m.id.value) else None,
        m.name, m.birthYear, m.animalType, m.gender,
        m.appearanceText, m.coatColor, m.coatType, m.adultWeight, m.adultHeight,
        m.characterAndBehaviorText,
        m.isHealthy, m.isVaccinated, m.isSterilized, m.isParasiteTreated,
        m.healthNotes, m.registrationNumber, m.tagNumber, m.tagColor,
        m.admissionText, m.admissionDate, m.capturePlace, m.captureCondition,
        m.additionalConditions,
        [], m.status, m.createdAt, m.updatedAt, m.imageUrls)
  }

  /** The document holding exactly the entity's field values and no id. */
  function Dumped(p: Pet): (m: PetModel)
    ensures m.id.None?
  {
    PetModel(None, p.name, p.birthYear, p.animalType, p.gender,
             p.appearanceText, p.coatColor, p.coatType, p.adultWeight, p.adultHeight,
             p.characterAndBehaviorText,
             p.isHealthy, p.isVaccinated, p.isSterilized, p.isParasiteTreated,
             p.healthNotes, p.registrationNumber, p.tagNumber, p.tagColor,
             p.admissionText, p.admissionDate, p.capturePlace, p.captureCondition,
             p.additionalConditions,
             p.groups, p.status, p.createdAt, p.updatedAt, p.imageUrls)
  }

  /**
   * `PetMapper.to_model`: every field but the id is dumped into the
   * document, `groups` included; a non-empty entity id must then be an
   * object id, and an empty or missing one leaves the document without id.
   */
  function ToModel(p: Pet): (r: Result<PetModel, Exception>)
    ensures r.Success? <==> p.id.None? || p.id.value == [] || Parse(p.id.value).Some?
    ensures r.Failure? ==> r.error == InvalidId(InvalidIdMessage(p.id.value))
    ensures r.Success? ==> r.value.id == (if p.id.Some? && p.id.value != [] then Parse(p.id.value) else None)
    ensures r.Success? ==> r.value.(id := None) == Dumped(p) && r.value.groups == p.groups
  {
    var model := Dumped(p);
    if p.id.Some? && p.id.value != [] then
      match Parse(p.id.value)
      case None => Failure(InvalidId(InvalidIdMessage(p.id.value)))
      case Some(oid) => Success(model.(id := Some(oid)))
    else Success(model)
  }

  /**
   * `to_domain(to_model(p))` is `p` with its id in canonical form and its
   * groups lost; so a pet in no group whose id is missing or printed comes
   * back unchanged.
   */
  lemma EntityRoundTrip(p: Pet)
    requires ToModel(p).Success?
    ensures ToDomain(ToModel(p).value) == p.(id := CanonicalId(p.id), groups := [])
    ensures p.groups == [] && (p.id.None? || (p.id.value != [] && Parse(p.id.value) == Some(p.id.value))) ==>
      ToDomain(ToModel(p).value) == p
  {
  }

  /** `to_model(to_domain(m))` gives back the document with its groups emptied, and nothing else changed. */
  lemma ModelRoundTrip(m: PetModel)
    ensures ToModel(ToDomain(m)) == Success(m.(groups := []))
  {
    if m.id.Some? {
      ParsePrinted(m.id.value);
    }
  }
}
