/** The pet entity: an animal of the shelter, with its description, health record and status. */
module PetEntity {
  import opened Wrappers
  import opened Exceptions
  import opened Enums
  import PyStr

  datatype Pet = Pet(
    /** Set by the store; `None` until the pet has been saved. */
    id: Option<string>,
    name: string,
    birthYear: Option<int>,
    animalType: AnimalType,
    gender: Option<Gender>,
    appearanceText: Option<string>,
    coatColor: Option<string>,
    coatType: Option<string>,
    adultWeight: Option<string>,
    adultHeight: Option<string>,
    characterAndBehaviorText: Option<string>,
    isHealthy: bool,
    isVaccinated: bool,
    isSterilized: bool,
    isParasiteTreated: bool,
    healthNotes: Option<string>,
    registrationNumber: Option<string>,
    tagNumber: Option<string>,
    tagColor: Option<string>,
    admissionText: Option<string>,
    admissionDate: Option<int>,
    capturePlace: Option<string>,
    captureCondition: Option<string>,
    additionalConditions: Option<string>,
    groups: seq<PetGroup>,
    status: PetStatus,
    createdAt: int,
    updatedAt: int,
    imageUrls: seq<string>)

  const NameMaxLength: nat := 255
  const MinBirthYear: int := 1900
  const CoatMaxLength: nat := 100
  const MeasureMaxLength: nat := 50
  const CapturePlaceMaxLength: nat := 255

  const TooShort: string := "String should have at least 1 character"
  const BirthYearTooSmall: string := "Input should be greater than or equal to 1900"
  const FutureBirthYear: string := "Birth year cannot be in the future"

  /** The message of a `max_length` violation. */
  function TooLong(max: nat): string {
    "String should have at most " + PyStr.NatToDecimal(max) + " characters"
  }

  /** An optional text is within `max` characters, or absent. */
  predicate Within(text: Option<string>, max: nat) {
    text.None? || |text.value| <= max
  }

  /**
   * The field constraints of `Pet`: a name of 1 to 255 characters; a birth
   * year, when given, from 1900 up to the current year; and the length caps
   * of the coat, measure, registration and capture-place texts.
   */
  predicate ValidPet(p: Pet, currentYear: int) {
    && 1 <= |p.name| <= NameMaxLength
    && (p.birthYear.Some? ==> MinBirthYear <= p.birthYear.value <= currentYear)
    && Within(p.coatColor, CoatMaxLength) && Within(p.coatType, CoatMaxLength)
    && Within(p.adultWeight, MeasureMaxLength) && Within(p.adultHeight, MeasureMaxLength)
    && Within(p.registrationNumber, MeasureMaxLength) && Within(p.tagNumber, MeasureMaxLength)
    && Within(p.tagColor, MeasureMaxLength)
    && Within(p.capturePlace, CapturePlaceMaxLength)
  }

  function LengthError(text: Option<string>, max: nat): (e: seq<string>)
    ensures e == [] <==> Within(text, max)
  {
    if Within(text, max) then [] else [TooLong(max)]
  }

  /**
   * `validate_birth_year` after the `ge=1900` check: a year below 1900 is
   * reported by the bound and never reaches the validator, which rejects a
   * year after the current one.
   */
  function BirthYearError(year: Option<int>, currentYear: int): (e: seq<string>)
    ensures e == [] <==> (year.Some? ==> MinBirthYear <= year.value <= currentYear)
    ensures e == [FutureBirthYear] <==> year.Some? && MinBirthYear <= year.value && year.value > currentYear
  {
    if year.None? then []
    else if year.value < MinBirthYear then [BirthYearTooSmall]
    else if year.value > currentYear then [FutureBirthYear]
    else []
  }

  /** Every violated constraint, one message each, in the order of the fields. */
  function PetErrors(p: Pet, currentYear: int): (errs: seq<string>)
    ensures errs == [] <==> ValidPet(p, currentYear)
  {
    (if |p.name| < 1 then [TooShort] else []) + LengthError(Some(p.name), NameMaxLength)
    + BirthYearError(p.birthYear, currentYear)
    + LengthError(p.coatColor, CoatMaxLength) + LengthError(p.coatType, CoatMaxLength)
    + LengthError(p.adultWeight, MeasureMaxLength) + LengthError(p.adultHeight, MeasureMaxLength)
    + LengthError(p.registrationNumber, MeasureMaxLength) + LengthError(p.tagNumber, MeasureMaxLength)
    + LengthError(p.tagColor, MeasureMaxLength)
    + LengthError(p.capturePlace, CapturePlaceMaxLength)
  }

  /**
   * `Pet(**fields)` as validation of a candidate value: the value itself when
   * every constraint holds, otherwise a validation error carrying the first
   * reported violation.
   */
  function Validate(p: Pet, currentYear: int): (r: Result<Pet, Exception>)
    ensures r.Success? <==> ValidPet(p, currentYear)
    ensures r.Success? ==> r.value == p
    ensures r.Failure? ==> r.error.ValueError? && r.error.message in PetErrors(p, currentYear)
  {
    var errs := PetErrors(p, currentYear);
    if errs == [] then Success(p) else Failure(ValueError(errs[0]))
  }

  /**
   * `Pet(name=…, animal_type=…)` with every other field left to its default:
   * no id, healthy, not vaccinated, sterilized nor treated for parasites,
   * available, in no group, with no images, and both timestamps `now`.
   */
  function NewPet(name: string, animalType: AnimalType, now: int, currentYear: int): (r: Result<Pet, Exception>)
    ensures r.Success? <==> 1 <= |name| <= NameMaxLength
    ensures r.Success? ==> ValidPet(r.value, currentYear)
    ensures r.Success? ==> var p := r.value;
      && p.id.None? && p.name == name && p.animalType == animalType
      && p.isHealthy && !p.isVaccinated && !p.isSterilized && !p.isParasiteTreated
      && p.status == Available && p.groups == [] && p.imageUrls == []
      && p.birthYear.None? && p.gender.None? && p.admissionDate.None?
      && p.createdAt == now && p.updatedAt == now
  {
    Validate(Pet(None, name, None, animalType, None, None, None, None, None, None, None,
                 true, false, false, false, None, None, None, None, None, None, None, None, None,
                 [], Available, now, now, []), currentYear)
  }

  /** A pet valid in one year stays valid in every later year: the only time-dependent constraint is an upper bound. */
  lemma ValidLater(p: Pet, year: int, later: int)
    requires ValidPet(p, year) && year <= later
    ensures ValidPet(p, later)
  {
  }
}
