/** The string-valued enumerations of the pet domain. */
module Enums {
  import opened Wrappers

  datatype AnimalType = Dog | Cat {
    function Value(): string {
      match this
      case Dog => "dog"
      case Cat => "cat"
    }
  }

  datatype Gender = Male | Female {
    function Value(): string {
      match this
      case Male => "male"
      case Female => "female"
    }
  }

  datatype PetGroup =
    | LookingForGuardians | OldTimers | Smallest | Medium | Large | ForExperiencedOwners | Shy
  {
    function Value(): string {
      match this
      case LookingForGuardians => "Ищем опекунов"
      case OldTimers => "Старички"
      case Smallest => "Самые маленькие"
      case Medium => "Средние"
      case Large => "Крупные"
      case ForExperiencedOwners => "Для опытных владельцев"
      case Shy => "Трусишки"
    }
  }

  datatype PetStatus = Available | Adopted | Reserved | UnderTreatment | TemporarilyUnavailable {
    function Value(): string {
      match this
      case Available => "available"
      case Adopted => "adopted"
      case Reserved => "reserved"
      case UnderTreatment => "under_treatment"
      case TemporarilyUnavailable => "temporarily_unavailable"
    }
  }

  /** `PetStatus(value)`: the member whose value is `v`, if any. */
  function PetStatusFromValue(v: string): (r: Option<PetStatus>)
    ensures r.Some? ==> r.value.Value() == v
    ensures (exists s: PetStatus :: s.Value() == v) ==> r.Some?
  {
    if v == "available" then Some(Available)
    else if v == "adopted" then Some(Adopted)
    else if v == "reserved" then Some(Reserved)
    else if v == "under_treatment" then Some(UnderTreatment)
    else if v == "temporarily_unavailable" then Some(TemporarilyUnavailable)
    else None
  }

  /** `AnimalType(value)`. */
  function AnimalTypeFromValue(v: string): (r: Option<AnimalType>)
    ensures r.Some? ==> r.value.Value() == v
    ensures (exists a: AnimalType :: a.Value() == v) ==> r.Some?
  {
    if v == "dog" then Some(Dog) else if v == "cat" then Some(Cat) else None
  }

  /** `Gender(value)`. */
  function GenderFromValue(v: string): (r: Option<Gender>)
    ensures r.Some? ==> r.value.Value() == v
    ensures (exists g: Gender :: g.Value() == v) ==> r.Some?
  {
    if v == "male" then Some(Male) else if v == "female" then Some(Female) else None
  }

  /** Every enumeration value is a non-empty string, so an enum filter is truthy exactly when it is given. */
  lemma ValuesNonEmpty(s: PetStatus, a: AnimalType, g: Gender, p: PetGroup)
    ensures s.Value() != "" && a.Value() != "" && g.Value() != "" && p.Value() != ""
  {
  }
}
