/**
 * `PetRepositoryImpl`: the pets collection in insertion order, the query
 * conditions built from `PetFilters`, sorting, paging, and the
 * merge-non-`None` update.
 */
module PetRepository {
  import opened Wrappers
  import opened Exceptions
  import opened ObjectIds
  import opened Collections
  import opened Enums
  import opened PetEntity
  import opened PetMapper
  import PyStr

  const IdRequired: string := "Pet ID is required for update"
  const DuplicateIdMessage: string := "E11000 duplicate key error collection: pets index: _id_"
  const NegativeSkip: string := "skip must be >= 0"

  function InvalidPetId(id: string): string { "Invalid pet ID: " + id }

  function PetNotFound(id: string): string { "Pet with ID " + id + " not found" }

  /** `PetFilters`: every criterion optional. */
  datatype PetFilters = PetFilters(
    status: Option<PetStatus>,
    animalType: Option<AnimalType>,
    gender: Option<Gender>,
    groups: Option<seq<PetGroup>>,
    isHealthy: Option<bool>,
    isVaccinated: Option<bool>,
    isSterilized: Option<bool>,
    searchQuery: Option<string>,
    orderBy: Option<string>)

  // ---------------------------------------------------------------------------
  // Query conditions

  /**
   * `query_conditions`: the dictionary can hold seven keys, and each slot
   * here holds the value stored under its key, or `None` while the key is
   * absent. `search` is the text of the `$or` of three case-insensitive
   * `$regex` conditions.
   */
  datatype Conditions = Conditions(
    status: Option<PetStatus>,
    animalType: Option<AnimalType>,
    gender: Option<Gender>,
    isHealthy: Option<bool>,
    isVaccinated: Option<bool>,
    isSterilized: Option<bool>,
    search: Option<string>)

  const NoConditions: Conditions := Conditions(None, None, None, None, None, None, None)

  /** A string-valued enumeration filter is truthy when it is given: its value is never empty. */
  predicate StatusTruthy(o: Option<PetStatus>) { o.Some? && o.value.Value() != "" }

  predicate AnimalTypeTruthy(o: Option<AnimalType>) { o.Some? && o.value.Value() != "" }

  predicate GenderTruthy(o: Option<Gender>) { o.Some? && o.value.Value() != "" }

  /**
   * The conditions `get_list` and `get_count` build: no filters give no
   * conditions; an enumeration filter and the search text contribute when
   * they are truthy, which for an enumeration is whenever it is given; a
   * boolean filter contributes whenever it is given, `false` included;
   * `groups` and `order_by` never contribute.
   */
  function BuildConditions(filters: Option<PetFilters>): (c: Conditions)
    ensures filters.None? ==> c == NoConditions
    ensures filters.Some? ==> var f := filters.value;
      && c.status == f.status && c.animalType == f.animalType && c.gender == f.gender
      && c.isHealthy == f.isHealthy && c.isVaccinated == f.isVaccinated && c.isSterilized == f.isSterilized
      && (c.search.Some? <==> f.searchQuery.Some? && f.searchQuery.value != "")
      && (c.search.Some? ==> c.search == f.searchQuery)
  {
    if filters.None? then NoConditions
    else
      var f := filters.value;
      var c0 := NoConditions;
      var c1 := if StatusTruthy(f.status) then c0.(status := f.status) else c0;
      var c2 := if AnimalTypeTruthy(f.animalType) then c1.(animalType := f.animalType) else c1;
      var c3 := if GenderTruthy(f.gender) then c2.(gender := f.gender) else c2;
      var c4 := if f.isHealthy.Some? then c3.(isHealthy := f.isHealthy) else c3;
      var c5 := if f.isVaccinated.Some? then c4.(isVaccinated := f.isVaccinated) else c4;
      var c6 := if f.isSterilized.Some? then c5.(isSterilized := f.isSterilized) else c5;
      if f.searchQuery.Some? && f.searchQuery.value != "" then c6.(search := f.searchQuery) else c6
  }

  /** A regular expression matches an optional text field only when the field holds a text. */
  predicate RegexHit(regexMatch: (string, string) -> bool, pattern: string, text: Option<string>) {
    text.Some? && regexMatch(pattern, text.value)
  }

  /** The `$or` of the search: the name, the appearance text or the character text matches. */
  predicate SearchHit(m: PetModel, pattern: string, regexMatch: (string, string) -> bool) {
    regexMatch(pattern, m.name) || RegexHit(regexMatch, pattern, m.appearanceText)
    || RegexHit(regexMatch, pattern, m.characterAndBehaviorText)
  }

  /** `find(query_conditions)` keeps a document that satisfies the condition under every key present. */
  predicate Satisfies(m: PetModel, c: Conditions, regexMatch: (string, string) -> bool) {
    && (c.status.None? || m.status == c.status.value)
    && (c.animalType.None? || m.animalType == c.animalType.value)
    && (c.gender.None? || m.gender == c.gender)
    && (c.isHealthy.None? || m.isHealthy == c.isHealthy.value)
    && (c.isVaccinated.None? || m.isVaccinated == c.isVaccinated.value)
    && (c.isSterilized.None? || m.isSterilized == c.isSterilized.value)
    && (c.search.None? || SearchHit(m, c.search.value, regexMatch))
  }

  function Matcher(c: Conditions, regexMatch: (string, string) -> bool): PetModel -> bool {
    (m: PetModel) => Satisfies(m, c, regexMatch)
  }

  /**
   * The reference meaning of the filters, criterion by criterion: each given
   * criterion must be met, an empty search text is no criterion, and a
   * search text must match the name, the appearance or the character text.
   */
  predicate MatchesFilters(m: PetModel, filters: Option<PetFilters>, regexMatch: (string, string) -> bool) {
    filters.None? ||
    var f := filters.value;
    && (f.status.None? || m.status == f.status.value)
    && (f.animalType.None? || m.animalType == f.animalType.value)
    && (f.gender.None? || m.gender == f.gender)
    && (f.isHealthy.None? || m.isHealthy == f.isHealthy.value)
    && (f.isVaccinated.None? || m.isVaccinated == f.isVaccinated.value)
    && (f.isSterilized.None? || m.isSterilized == f.isSterilized.value)
    && (f.searchQuery.None? || f.searchQuery.value == "" || SearchHit(m, f.searchQuery.value, regexMatch))
  }

  /** The selection keeps one document for each stored document that meets the filters. */
  lemma CountMeansFilters(docs: seq<PetModel>, filters: Option<PetFilters>, regexMatch: (string, string) -> bool)
    ensures |Filter(docs, Matcher(BuildConditions(filters), regexMatch))|
      == |set i: nat | i < |docs| && MatchesFilters(docs[i], filters, regexMatch)|
  {
    var p := Matcher(BuildConditions(filters), regexMatch);
    FilterCount(docs, p);
    forall i: nat | i < |docs|
      ensures p(docs[i]) == MatchesFilters(docs[i], filters, regexMatch)
    {
      ConditionsMeanFilters(docs[i], filters, regexMatch);
    }
    assert Positions(docs, p) == set i: nat | i < |docs| && MatchesFilters(docs[i], filters, regexMatch);
  }

  /** A document satisfies the built conditions exactly when it meets the filters. */
  lemma ConditionsMeanFilters(m: PetModel, filters: Option<PetFilters>, regexMatch: (string, string) -> bool)
    ensures Satisfies(m, BuildConditions(filters), regexMatch) <==> MatchesFilters(m, filters, regexMatch)
  {
  }

  /** The `groups` filter changes nothing in the conditions. */
  lemma GroupsIgnored(f: PetFilters, groups: Option<seq<PetGroup>>)
    ensures BuildConditions(Some(f.(groups := groups))) == BuildConditions(Some(f))
  {
  }

  // ---------------------------------------------------------------------------
  // Ordering

  /** The fields a listing may be sorted by. */
  const SortableFields: set<string> :=
    {"name", "created_at", "updated_at", "birth_year", "admission_date", "status", "animal_type", "gender"}

  /** `order_field`: the expression without one leading `-`. */
  function OrderField(expr: string): (f: string)
    ensures PyStr.StartsWith(expr, "-") ==> expr == "-" + f
    ensures !PyStr.StartsWith(expr, "-") ==> f == expr
  {
    if PyStr.StartsWith(expr, "-") then expr[1..] else expr
  }

  /**
   * The sort expression handed to the cursor: `order_by` itself when it is a
   * non-empty text naming an allowed field, ascending or with a `-` for
   * descending; any other `order_by` is ignored.
   */
  function SortExpr(filters: Option<PetFilters>): (r: Option<string>)
    ensures r.Some? <==>
      && filters.Some? && filters.value.orderBy.Some?
      && exists field :: field in SortableFields && (filters.value.orderBy.value == field || filters.value.orderBy.value == "-" + field)
    ensures r.Some? ==> r == filters.value.orderBy
  {
    if filters.Some? && filters.value.orderBy.Some? && filters.value.orderBy.value != "" then
      var expr := filters.value.orderBy.value;
      if OrderField(expr) in SortableFields then Some(expr)
      else
        assert forall field :: field in SortableFields ==> field != [] && field[0] != '-';
        None
    else None
  }

  /** The documents in the order the cursor yields them: sorted when there is a sort expression, natural order otherwise. */
  function Ordered(xs: seq<PetModel>, sort: Option<string>, sortCursor: (seq<PetModel>, string) -> seq<PetModel>): seq<PetModel> {
    if sort.Some? then sortCursor(xs, sort.value) else xs
  }

  /** The database's sort rearranges the documents it is given, and adds or drops none. */
  ghost predicate SortPermutes(sortCursor: (seq<PetModel>, string) -> seq<PetModel>) {
    forall xs, e :: multiset(sortCursor(xs, e)) == multiset(xs)
  }

  // ---------------------------------------------------------------------------
  // The update merge

  /** The optional text fields of a pet. */
  datatype TextField =
    | AppearanceText | CoatColor | CoatType | AdultWeight | AdultHeight | CharacterAndBehaviorText
    | HealthNotes | RegistrationNumber | TagNumber | TagColor | AdmissionText | CapturePlace
    | CaptureCondition | AdditionalConditions

  /** The boolean health fields of a pet. */
  datatype FlagField = IsHealthy | IsVaccinated | IsSterilized | IsParasiteTreated

  /** One entry of `update_data`: a field name with its new value. */
  datatype PetField =
    | NameValue(name: string)
    | BirthYearValue(birthYear: int)
    | AnimalTypeValue(animalType: AnimalType)
    | GenderValue(gender: Gender)
    | TextValue(field: TextField, text: string)
    | FlagValue(flag: FlagField, on: bool)
    | AdmissionDateValue(admissionDate: int)
    | GroupsValue(groups: seq<PetGroup>)
    | StatusValue(status: PetStatus)
    | UpdatedAtValue(updatedAt: int)
    | ImageUrlsValue(imageUrls: seq<string>)

  /** `setattr(model, key, value)`. */
  function SetAttr(m: PetModel, e: PetField): PetModel {
    match e
    case NameValue(v) => m.(name := v)
    case BirthYearValue(v) => m.(birthYear := Some(v))
    case AnimalTypeValue(v) => m.(animalType := v)
    case GenderValue(v) => m.(gender := Some(v))
    case TextValue(f, v) =>
      (match f
       case AppearanceText => m.(appearanceText := Some(v))
       case CoatColor => m.(coatColor := Some(v))
       case CoatType => m.(coatType := Some(v))
       case AdultWeight => m.(adultWeight := Some(v))
       case AdultHeight => m.(adultHeight := Some(v))
       case CharacterAndBehaviorText => m.(characterAndBehaviorText := Some(v))
       case HealthNotes => m.(healthNotes := Some(v))
       case RegistrationNumber => m.(registrationNumber := Some(v))
       case TagNumber => m.(tagNumber := Some(v))
       case TagColor => m.(tagColor := Some(v))
       case AdmissionText => m.(admissionText := Some(v))
       case CapturePlace => m.(capturePlace := Some(v))
       case CaptureCondition => m.(captureCondition := Some(v))
       case AdditionalConditions => m.(additionalConditions := Some(v)))
    case FlagValue(f, v) =>
      (match f
       case IsHealthy => m.(isHealthy := v)
       case IsVaccinated => m.(isVaccinated := v)
       case IsSterilized => m.(isSterilized := v)
       case IsParasiteTreated => m.(isParasiteTreated := v))
    case AdmissionDateValue(v) => m.(admissionDate := Some(v))
    case GroupsValue(v) => m.(groups := v)
    case StatusValue(v) => m.(status := v)
    case UpdatedAtValue(v) => m.(updatedAt := v)
    case ImageUrlsValue(v) => m.(imageUrls := v)
  }

  /** The assignments of `data` carried out from left to right. */
  function ApplyAll(m: PetModel, data: seq<PetField>): PetModel
    decreases |data|
  {
    if data == [] then m else ApplyAll(SetAttr(m, data[0]), data[1..])
  }

  /** The entry of an optional field: present exactly when the field is not `None`. */
  function TextEntry(f: TextField, v: Option<string>): (e: seq<PetField>)
    ensures |e| <= 1
  {
    if v.Some? then [TextValue(f, v.value)] else []
  }

  function BirthYearEntry(v: Option<int>): (e: seq<PetField>)
    ensures |e| <= 1
  {
    if v.Some? then [BirthYearValue(v.value)] else []
  }

  function GenderEntry(v: Option<Gender>): (e: seq<PetField>)
    ensures |e| <= 1
  {
    if v.Some? then [GenderValue(v.value)] else []
  }

  function AdmissionDateEntry(v: Option<int>): (e: seq<PetField>)
    ensures |e| <= 1
  {
    if v.Some? then [AdmissionDateValue(v.value)] else []
  }

  /** The entries of the basic information: name, birth year, animal type and gender. */
  function BasicEntries(p: Pet): seq<PetField> {
    [NameValue(p.name)] + BirthYearEntry(p.birthYear) + [AnimalTypeValue(p.animalType)] + GenderEntry(p.gender)
  }

  /** The entries of the appearance and coat texts. */
  function CoatEntries(p: Pet): seq<PetField> {
    TextEntry(AppearanceText, p.appearanceText) + TextEntry(CoatColor, p.coatColor) + TextEntry(CoatType, p.coatType)
  }

  /** The entries of the adult measures and of the character text. */
  function MeasureEntries(p: Pet): seq<PetField> {
    TextEntry(AdultWeight, p.adultWeight) + TextEntry(AdultHeight, p.adultHeight)
    + TextEntry(CharacterAndBehaviorText, p.characterAndBehaviorText)
  }

  /** The entries of the health record: the four flags and the notes. */
  function HealthEntries(p: Pet): seq<PetField> {
    [FlagValue(IsHealthy, p.isHealthy)] + [FlagValue(IsVaccinated, p.isVaccinated)]
    + [FlagValue(IsSterilized, p.isSterilized)] + [FlagValue(IsParasiteTreated, p.isParasiteTreated)]
    + TextEntry(HealthNotes, p.healthNotes)
  }

  /** The entries of the registration: its number and the tag. */
  function RegistrationEntries(p: Pet): seq<PetField> {
    TextEntry(RegistrationNumber, p.registrationNumber) + TextEntry(TagNumber, p.tagNumber) + TextEntry(TagColor, p.tagColor)
  }

  /** The entries of the admission: its text and date. */
  function AdmissionEntries(p: Pet): seq<PetField> {
    TextEntry(AdmissionText, p.admissionText) + AdmissionDateEntry(p.admissionDate)
  }

  /** The entries of the capture: its place and condition. */
  function CaptureEntries(p: Pet): seq<PetField> {
    TextEntry(CapturePlace, p.capturePlace) + TextEntry(CaptureCondition, p.captureCondition)
  }

  /** The entries of the additional conditions and of the groups. */
  function GroupEntries(p: Pet): seq<PetField> {
    TextEntry(AdditionalConditions, p.additionalConditions) + [GroupsValue(p.groups)]
  }

  /** The entries of the status, update time and images. */
  function TailEntries(p: Pet, now: int): seq<PetField> {
    [StatusValue(p.status)] + [UpdatedAtValue(now)] + [ImageUrlsValue(p.imageUrls)]
  }

  /**
   * `update_data`: the entity dumped in field order without `id` and
   * `created_at`, with every `None` field dropped, and with the value of
   * `updated_at` replaced (in its place) by the stored document's fresh
   * timestamp.
   */
  function UpdateData(p: Pet, now: int): seq<PetField> {
    BasicEntries(p) + CoatEntries(p) + MeasureEntries(p) + HealthEntries(p)
    + RegistrationEntries(p) + AdmissionEntries(p) + CaptureEntries(p) + GroupEntries(p) + TailEntries(p, now)
  }

  /** An optional field after the merge: the entity's value when it has one, the stored one otherwise. */
  function Keep<T>(given: Option<T>, stored: Option<T>): Option<T> {
    if given.Some? then given else stored
  }

  /**
   * The document an update should leave: id and creation time kept, every
   * field the entity gives overwritten, every field it leaves `None` kept,
   * and `updated_at` refreshed.
   */
  function Merged(existing: PetModel, p: Pet, now: int): PetModel {
    PetModel(existing.id, p.name, Keep(p.birthYear, existing.birthYear), p.animalType, Keep(p.gender, existing.gender),
             Keep(p.appearanceText, existing.appearanceText), Keep(p.coatColor, existing.coatColor),
             Keep(p.coatType, existing.coatType), Keep(p.adultWeight, existing.adultWeight),
             Keep(p.adultHeight, existing.adultHeight),
             Keep(p.characterAndBehaviorText, existing.characterAndBehaviorText),
             p.isHealthy, p.isVaccinated, p.isSterilized, p.isParasiteTreated,
             Keep(p.healthNotes, existing.healthNotes), Keep(p.registrationNumber, existing.registrationNumber),
             Keep(p.tagNumber, existing.tagNumber), Keep(p.tagColor, existing.tagColor),
             Keep(p.admissionText, existing.admissionText), Keep(p.admissionDate, existing.admissionDate),
             Keep(p.capturePlace, existing.capturePlace), Keep(p.captureCondition, existing.captureCondition),
             Keep(p.additionalConditions, existing.additionalConditions),
             p.groups, p.status, existing.createdAt, now, p.imageUrls)
  }

  /** Carrying out `a + b` is carrying out `a`, then `b`. */
  lemma {:induction false} ApplyConcat(m: PetModel, a: seq<PetField>, b: seq<PetField>)
    ensures ApplyAll(m, a + b) == ApplyAll(ApplyAll(m, a), b)
    decreases |a|
  {
    if a == [] {
      assert a + b == b;
    } else {
      assert (a + b)[1..] == a[1..] + b;
      ApplyConcat(SetAttr(m, a[0]), a[1..], b);
    }
  }

  /** Carrying out `prefix` and then one optional entry. */
  lemma ApplyStep(m: PetModel, prefix: seq<PetField>, entry: seq<PetField>)
    requires |entry| <= 1
    ensures ApplyAll(m, prefix + entry) == if entry == [] then ApplyAll(m, prefix) else SetAttr(ApplyAll(m, prefix), entry[0])
  {
    ApplyConcat(m, prefix, entry);
    if entry != [] {
      assert entry[1..] == [];
    }
  }

  /** Carrying out three optional entries, one after the other. */
  lemma ApplyThree(m: PetModel, e1: seq<PetField>, e2: seq<PetField>, e3: seq<PetField>)
    requires |e1| <= 1 && |e2| <= 1 && |e3| <= 1
    ensures ApplyAll(m, e1 + e2 + e3) == ApplyAll(ApplyAll(ApplyAll(m, e1), e2), e3)
  {
    ApplyConcat(m, e1 + e2, e3);
    ApplyConcat(m, e1, e2);
  }

  lemma BasicMerges(m: PetModel, p: Pet)
    ensures ApplyAll(m, BasicEntries(p)) ==
      m.(name := p.name, birthYear := Keep(p.birthYear, m.birthYear), animalType := p.animalType, gender := Keep(p.gender, m.gender))
  {
    var e1 := [NameValue(p.name)];
    var e2 := e1 + BirthYearEntry(p.birthYear);
    var e3 := e2 + [AnimalTypeValue(p.animalType)];
    ApplyStep(m, [], e1);
    assert [] + e1 == e1;
    ApplyStep(m, e1, BirthYearEntry(p.birthYear));
    ApplyStep(m, e2, [AnimalTypeValue(p.animalType)]);
    ApplyStep(m, e3, GenderEntry(p.gender));
  }

  lemma CoatMerges(m: PetModel, p: Pet)
    ensures ApplyAll(m, CoatEntries(p)) ==
      m.(appearanceText := Keep(p.appearanceText, m.appearanceText), coatColor := Keep(p.coatColor, m.coatColor),
         coatType := Keep(p.coatType, m.coatType))
  {
    ApplyThree(m, TextEntry(AppearanceText, p.appearanceText), TextEntry(CoatColor, p.coatColor), TextEntry(CoatType, p.coatType));
  }

  lemma MeasureMerges(m: PetModel, p: Pet)
    ensures ApplyAll(m, MeasureEntries(p)) ==
      m.(adultWeight := Keep(p.adultWeight, m.adultWeight), adultHeight := Keep(p.adultHeight, m.adultHeight),
         characterAndBehaviorText := Keep(p.characterAndBehaviorText, m.characterAndBehaviorText))
  {
    ApplyThree(m, TextEntry(AdultWeight, p.adultWeight), TextEntry(AdultHeight, p.adultHeight),
               TextEntry(CharacterAndBehaviorText, p.characterAndBehaviorText));
  }

  lemma HealthMerges(m: PetModel, p: Pet)
    ensures ApplyAll(m, HealthEntries(p)) ==
      m.(isHealthy := p.isHealthy, isVaccinated := p.isVaccinated, isSterilized := p.isSterilized,
         isParasiteTreated := p.isParasiteTreated, healthNotes := Keep(p.healthNotes, m.healthNotes))
  {
    var e1 := [FlagValue(IsHealthy, p.isHealthy)];
    var e2 := e1 + [FlagValue(IsVaccinated, p.isVaccinated)];
    var e3 := e2 + [FlagValue(IsSterilized, p.isSterilized)];
    var e4 := e3 + [FlagValue(IsParasiteTreated, p.isParasiteTreated)];
    ApplyStep(m, [], e1);
    assert [] + e1 == e1;
    ApplyStep(m, e1, [FlagValue(IsVaccinated, p.isVaccinated)]);
    ApplyStep(m, e2, [FlagValue(IsSterilized, p.isSterilized)]);
    ApplyStep(m, e3, [FlagValue(IsParasiteTreated, p.isParasiteTreated)]);
    ApplyStep(m, e4, TextEntry(HealthNotes, p.healthNotes));
  }

  lemma RegistrationMerges(m: PetModel, p: Pet)
    ensures ApplyAll(m, RegistrationEntries(p)) ==
      m.(registrationNumber := Keep(p.registrationNumber, m.registrationNumber), tagNumber := Keep(p.tagNumber, m.tagNumber),
         tagColor := Keep(p.tagColor, m.tagColor))
  {
    ApplyThree(m, TextEntry(RegistrationNumber, p.registrationNumber), TextEntry(TagNumber, p.tagNumber),
               TextEntry(TagColor, p.tagColor));
  }

  lemma AdmissionMerges(m: PetModel, p: Pet)
    ensures ApplyAll(m, AdmissionEntries(p)) ==
      m.(admissionText := Keep(p.admissionText, m.admissionText), admissionDate := Keep(p.admissionDate, m.admissionDate))
  {
    ApplyConcat(m, TextEntry(AdmissionText, p.admissionText), AdmissionDateEntry(p.admissionDate));
  }

  lemma CaptureMerges(m: PetModel, p: Pet)
    ensures ApplyAll(m, CaptureEntries(p)) ==
      m.(capturePlace := Keep(p.capturePlace, m.capturePlace), captureCondition := Keep(p.captureCondition, m.captureCondition))
  {
    ApplyConcat(m, TextEntry(CapturePlace, p.capturePlace), TextEntry(CaptureCondition, p.captureCondition));
  }

  lemma GroupMerges(m: PetModel, p: Pet)
    ensures ApplyAll(m, GroupEntries(p)) ==
      m.(additionalConditions := Keep(p.additionalConditions, m.additionalConditions), groups := p.groups)
  {
    ApplyConcat(m, TextEntry(AdditionalConditions, p.additionalConditions), [GroupsValue(p.groups)]);
  }

  lemma TailMerges(m: PetModel, p: Pet, now: int)
    ensures ApplyAll(m, TailEntries(p, now)) ==
      m.(status := p.status, updatedAt := now, imageUrls := p.imageUrls)
  {
    ApplyThree(m, [StatusValue(p.status)], [UpdatedAtValue(now)], [ImageUrlsValue(p.imageUrls)]);
  }

  /** Carrying out `update_data` gives the merged document. */
  lemma UpdateDataMerges(existing: PetModel, p: Pet, now: int)
    ensures ApplyAll(existing, UpdateData(p, now)) == Merged(existing, p, now)
  {
    var s1 := BasicEntries(p);
    var s2 := s1 + CoatEntries(p);
    var s3 := s2 + MeasureEntries(p);
    var s4 := s3 + HealthEntries(p);
    var s5 := s4 + RegistrationEntries(p);
    var s6 := s5 + AdmissionEntries(p);
    var s7 := s6 + CaptureEntries(p);
    var s8 := s7 + GroupEntries(p);
    ApplyConcat(existing, s8, TailEntries(p, now));
    ApplyConcat(existing, s7, GroupEntries(p));
    ApplyConcat(existing, s6, CaptureEntries(p));
    ApplyConcat(existing, s5, AdmissionEntries(p));
    ApplyConcat(existing, s4, RegistrationEntries(p));
    ApplyConcat(existing, s3, HealthEntries(p));
    ApplyConcat(existing, s2, MeasureEntries(p));
    ApplyConcat(existing, s1, CoatEntries(p));
    var m1 := ApplyAll(existing, s1);
    BasicMerges(existing, p);
    var m2 := ApplyAll(m1, CoatEntries(p));
    CoatMerges(m1, p);
    var m3 := ApplyAll(m2, MeasureEntries(p));
    MeasureMerges(m2, p);
    var m4 := ApplyAll(m3, HealthEntries(p));
    HealthMerges(m3, p);
    var m5 := ApplyAll(m4, RegistrationEntries(p));
    RegistrationMerges(m4, p);
    var m6 := ApplyAll(m5, AdmissionEntries(p));
    AdmissionMerges(m5, p);
    var m7 := ApplyAll(m6, CaptureEntries(p));
    CaptureMerges(m6, p);
    var m8 := ApplyAll(m7, GroupEntries(p));
    GroupMerges(m7, p);
    TailMerges(m8, p, now);
  }

  /** The `for key, value in update_data.items(): setattr(...)` loop. */
  method SetAttrs(m: PetModel, data: seq<PetField>) returns (r: PetModel)
    ensures r == ApplyAll(m, data)
  {
    r := m;
    var i := 0;
    while i < |data|
      invariant 0 <= i <= |data|
      invariant r == ApplyAll(m, data[..i])
    {
      assert data[..i + 1] == data[..i] + [data[i]];
      ApplyStep(m, data[..i], [data[i]]);
      r := SetAttr(r, data[i]);
      i := i + 1;
    }
    assert data[..i] == data;
  }

  // ---------------------------------------------------------------------------
  // The collection

  /** Every stored document has an id, and no two share one. */
  predicate IdsUnique(docs: seq<PetModel>) {
    (forall i :: 0 <= i < |docs| ==> docs[i].id.Some?) &&
    (forall i, j :: 0 <= i < j < |docs| ==> docs[i].id != docs[j].id)
  }

  /** Where the document with this id sits. */
  function IdIndex(docs: seq<PetModel>, oid: ObjectId): (r: Option<nat>)
    ensures r.Some? ==> r.value < |docs| && docs[r.value].id == Some(oid)
    ensures r.None? ==> forall j :: 0 <= j < |docs| ==> docs[j].id != Some(oid)
  {
    FirstIndex(docs, (d: PetModel) => d.id == Some(oid))
  }

  /** Where the document that a text names sits: nowhere for a text that is not an object id. */
  function Lookup(docs: seq<PetModel>, petId: string): (r: Option<nat>)
    ensures r.Some? <==> Parse(petId).Some? && exists j :: 0 <= j < |docs| && docs[j].id == Parse(petId)
    ensures r.Some? ==> r.value < |docs| && docs[r.value].id == Parse(petId)
  {
    match Parse(petId)
    case None => None
    case Some(oid) => IdIndex(docs, oid)
  }

  /** The id `insert()` leaves on a document: its own, or the one the database generates. */
  function WithId(m: PetModel, newOid: ObjectId): PetModel {
    if m.id.Some? then m else m.(id := Some(newOid))
  }

  /** The collection without the document at `i`. */
  function Without(docs: seq<PetModel>, i: nat): (r: seq<PetModel>)
    requires i < |docs|
    ensures |r| == |docs| - 1
  {
    docs[..i] + docs[i + 1..]
  }

  /**
   * Removing one document of a collection with unique ids keeps them unique,
   * leaves no document with its id, and keeps every other document where a
   * lookup finds it.
   */
  lemma WithoutEffects(docs: seq<PetModel>, i: nat)
    requires IdsUnique(docs) && i < |docs|
    ensures IdsUnique(Without(docs, i))
    ensures forall j :: 0 <= j < |docs| - 1 ==> Without(docs, i)[j] == docs[if j < i then j else j + 1]
    ensures forall j :: 0 <= j < |docs| - 1 ==> Without(docs, i)[j].id != docs[i].id
    ensures forall x :: x in Without(docs, i) <==> x in docs && x.id != docs[i].id
  {
    var r := Without(docs, i);
    forall x | x in docs && x.id != docs[i].id ensures x in r {
      var k :| 0 <= k < |docs| && docs[k] == x;
      assert k != i;
      if k < i { assert r[k] == x; } else { assert r[k - 1] == x; }
    }
  }

  class PetRepositoryImpl {
    var docs: seq<PetModel>
    /** The database's case-insensitive `$regex` test: does `pattern` match `text`. */
    const regexMatch: (string, string) -> bool
    /** The database's `sort(expr)` on a set of documents. */
    const sortCursor: (seq<PetModel>, string) -> seq<PetModel>

    ghost predicate Valid()
      reads this
    {
      IdsUnique(docs) && SortPermutes(sortCursor)
    }

    constructor (regexMatch: (string, string) -> bool, sortCursor: (seq<PetModel>, string) -> seq<PetModel>)
      requires SortPermutes(sortCursor)
      ensures Valid() && docs == []
      ensures this.regexMatch == regexMatch && this.sortCursor == sortCursor
    {
      docs := [];
      this.regexMatch := regexMatch;
      this.sortCursor := sortCursor;
    }

    /** `get_by_id`: `None` for a text that is not an object id and for an id nobody has. */
    function GetById(petId: string): (r: Option<Pet>)
      reads this
      ensures r.Some? <==> Lookup(docs, petId).Some?
      ensures r.Some? ==> r.value == ToDomain(docs[Lookup(docs, petId).value])
    {
      match Lookup(docs, petId)
      case None => None
      case Some(i) => Some(ToDomain(docs[i]))
    }

    /** The documents `find(query_conditions)` selects, in natural order. */
    function Matching(filters: Option<PetFilters>): (r: seq<PetModel>)
      reads this
    {
      Filter(docs, Matcher(BuildConditions(filters), regexMatch))
    }

    /**
     * `get_list`: the selected documents in cursor order, `skip` of them
     * dropped and at most `|limit|` kept (0 keeps all), as entities; the
     * driver refuses a negative `skip`.
     */
    function GetList(skip: int, limit: int, filters: Option<PetFilters>): (r: Result<seq<Pet>, Exception>)
      reads this
      ensures skip < 0 <==> r == Failure(ValueError(NegativeSkip))
      ensures r.Success? ==> r.value == MapSeq(Page(Ordered(Matching(filters), SortExpr(filters), sortCursor), skip, limit), ToDomain)
    {
      if skip < 0 then Failure(ValueError(NegativeSkip))
      else Success(MapSeq(Page(Ordered(Matching(filters), SortExpr(filters), sortCursor), skip, limit), ToDomain))
    }

    /** `get_count`: how many documents the same conditions select. */
    function GetCount(filters: Option<PetFilters>): (n: nat)
      reads this
      ensures n <= |docs|
      ensures n == |set i: nat | i < |docs| && MatchesFilters(docs[i], filters, regexMatch)|
    {
      CountMeansFilters(docs, filters, regexMatch);
      |Matching(filters)|
    }

    /**
     * `create`: the entity is converted (an id that is not an object id is
     * refused) and inserted, getting the generated id `newOid` unless it
     * brings its own, which must not be in use.
     */
    method Create(pet: Pet, newOid: ObjectId) returns (r: Result<Pet, Exception>)
      requires Valid()
      requires forall j :: 0 <= j < |docs| ==> docs[j].id != Some(newOid)
      modifies this
      ensures Valid()
      ensures r.Failure? ==> docs == old(docs)
      ensures ToModel(pet).Failure? ==> r == Failure(ToModel(pet).error)
      ensures ToModel(pet).Success? ==>
        var m := WithId(ToModel(pet).value, newOid);
        if exists j :: 0 <= j < |old(docs)| && old(docs)[j].id == m.id then r == Failure(DuplicateKeyError(DuplicateIdMessage))
        else r == Success(ToDomain(m)) && docs == old(docs) + [m]
      ensures r.Success? ==> r.value.id.Some? && r.value.groups == [] && r.value.name == pet.name
    {
      var model := ToModel(pet);
      if model.Failure? {
        return Failure(model.error);
      }
      var m := WithId(model.value, newOid);
      if IdIndex(docs, m.id.value).Some? {
        return Failure(DuplicateKeyError(DuplicateIdMessage));
      }
      docs := docs + [m];
      r := Success(ToDomain(m));
    }

    /**
     * `update`: the id must be present, be an object id and name a stored
     * pet; then the stored document gets every non-`None` field of the
     * entity but `id` and `created_at`, and a fresh `updated_at`, and is
     * saved back in its place.
     */
    method Update(pet: Pet, now: int) returns (r: Result<Pet, Exception>)
      requires Valid()
      modifies this
      ensures Valid()
      ensures r.Failure? ==> docs == old(docs)
      ensures pet.id.None? || pet.id.value == [] ==> r == Failure(ValueError(IdRequired))
      ensures pet.id.Some? && pet.id.value != [] && Parse(pet.id.value).None? ==> r == Failure(ValueError(InvalidPetId(pet.id.value)))
      ensures pet.id.Some? && Parse(pet.id.value).Some? && Lookup(old(docs), pet.id.value).None? ==>
        r == Failure(ValueError(PetNotFound(pet.id.value)))
      ensures pet.id.Some? && Lookup(old(docs), pet.id.value).Some? ==>
        var i := Lookup(old(docs), pet.id.value).value;
        docs == old(docs)[i := Merged(old(docs)[i], pet, now)] && r == Success(ToDomain(docs[i]))
    {
      if pet.id.None? || pet.id.value == [] {
        return Failure(ValueError(IdRequired));
      }
      var objectId := Parse(pet.id.value);
      if objectId.None? {
        return Failure(ValueError(InvalidPetId(pet.id.value)));
      }
      var found := IdIndex(docs, objectId.value);
      if found.None? {
        return Failure(ValueError(PetNotFound(pet.id.value)));
      }
      var i := found.value;
      var existing := docs[i].(updatedAt := now);
      var updated := SetAttrs(existing, UpdateData(pet, existing.updatedAt));
      UpdateDataMerges(existing, pet, now);
      docs := docs[i := updated];
      r := Success(ToDomain(updated));
    }

    /** `delete`: `false` for a text that is not an object id and for an id nobody has; otherwise that one document is removed. */
    method Delete(petId: string) returns (deleted: bool)
      requires Valid()
      modifies this
      ensures Valid()
      ensures deleted <==> Lookup(old(docs), petId).Some?
      ensures !deleted ==> docs == old(docs)
      ensures deleted ==> docs == Without(old(docs), Lookup(old(docs), petId).value)
    {
      var objectId := Parse(petId);
      if objectId.None? {
        return false;
      }
      var found := IdIndex(docs, objectId.value);
      if found.None? {
        return false;
      }
      WithoutEffects(docs, found.value);
      docs := Without(docs, found.value);
      return true;
    }
  }

  // ---------------------------------------------------------------------------
  // Properties of the queries

  /** Every stored pet is found again by the printed form of its id. */
  lemma StoredFoundById(repo: PetRepositoryImpl, j: nat)
    requires repo.Valid() && j < |repo.docs|
    ensures repo.GetById(repo.docs[j].id.value) == Some(ToDomain(repo.docs[j]))
  {
    ParsePrinted(repo.docs[j].id.value);
  }

  /**
   * `get_list` and `get_count` agree: the list holds `count - skip` pets
   * (none if `skip` passes the count), cut at `|limit|` unless the limit is
   * 0, and each listed pet is a stored document that meets the filters.
   */
  lemma ListAgreesWithCount(repo: PetRepositoryImpl, skip: nat, limit: int, filters: Option<PetFilters>)
    requires repo.Valid()
    ensures var list := repo.GetList(skip, limit, filters).value;
      var n := repo.GetCount(filters);
      |list| == Min(if skip <= n then n - skip else 0, if limit == 0 then n else Abs(limit))
    ensures limit > 0 ==> |repo.GetList(skip, limit, filters).value| <= limit
    ensures forall p :: p in repo.GetList(skip, limit, filters).value ==>
      exists m :: m in repo.docs && MatchesFilters(m, filters, repo.regexMatch) && p == ToDomain(m)
  {
    var matching := repo.Matching(filters);
    var ordered := Ordered(matching, SortExpr(filters), repo.sortCursor);
    assert multiset(ordered) == multiset(matching);
    assert |multiset(ordered)| == |ordered| && |multiset(matching)| == |matching|;
    assert |ordered| == |matching|;
    var page := Page(ordered, skip, limit);
    var list := repo.GetList(skip, limit, filters).value;
    assert list == MapSeq(page, ToDomain);
    assert |list| == |page|;
    forall p | p in list
      ensures exists m :: m in repo.docs && MatchesFilters(m, filters, repo.regexMatch) && p == ToDomain(m)
    {
      var i :| 0 <= i < |list| && list[i] == p;
      var m := page[i];
      assert m == ordered[skip + i];
      assert m in multiset(matching);
      assert m in matching;
      assert Matcher(BuildConditions(filters), repo.regexMatch)(m);
      ConditionsMeanFilters(m, filters, repo.regexMatch);
    }
  }

  /** Without an allowed sort the page is taken from the selected documents in natural order. */
  lemma UnsortedListInNaturalOrder(repo: PetRepositoryImpl, skip: nat, limit: int, filters: Option<PetFilters>)
    requires SortExpr(filters).None?
    ensures var list := repo.GetList(skip, limit, filters).value;
      forall i :: 0 <= i < |list| ==> list[i] == ToDomain(repo.Matching(filters)[skip + i])
  {
  }

  /** An `order_by` outside the allowlist is silently dropped: the listing is the one without it. */
  lemma DisallowedOrderIgnored(repo: PetRepositoryImpl, skip: int, limit: int, f: PetFilters)
    requires SortExpr(Some(f)).None?
    ensures repo.GetList(skip, limit, Some(f)) == repo.GetList(skip, limit, Some(f.(orderBy := None)))
  {
    assert BuildConditions(Some(f)) == BuildConditions(Some(f.(orderBy := None)));
  }

  /** A page starting at 0 and as long as the count lists every pet that meets the filters. */
  lemma FullPageListsEveryMatch(repo: PetRepositoryImpl, limit: int, filters: Option<PetFilters>, m: PetModel)
    requires repo.Valid()
    requires limit == 0 || Abs(limit) >= repo.GetCount(filters)
    requires m in repo.docs && MatchesFilters(m, filters, repo.regexMatch)
    ensures ToDomain(m) in repo.GetList(0, limit, filters).value
  {
    var matching := repo.Matching(filters);
    ConditionsMeanFilters(m, filters, repo.regexMatch);
    assert Matcher(BuildConditions(filters), repo.regexMatch)(m);
    var k :| 0 <= k < |repo.docs| && repo.docs[k] == m;
    assert m in matching;
    var ordered := Ordered(matching, SortExpr(filters), repo.sortCursor);
    assert multiset(ordered) == multiset(matching);
    assert m in multiset(ordered);
    var page := Page(ordered, 0, limit);
    assert |page| == |ordered|;
    var j :| 0 <= j < |ordered| && ordered[j] == m;
    assert page[j] == m;
    var list := repo.GetList(0, limit, filters).value;
    assert list[j] == ToDomain(m);
  }

  /** Merging the same entity twice is merging it once, at the later time. */
  lemma MergeTwice(existing: PetModel, p: Pet, now: int, later: int)
    ensures Merged(Merged(existing, p, now), p, later) == Merged(existing, p, later)
  {
  }

  /**
   * Replacing a document by one with the same id keeps the ids unique and
   * every lookup where it was: an updated pet is found again in its place.
   */
  lemma ReplaceKeepsLookup(docs: seq<PetModel>, i: nat, m: PetModel, petId: string)
    requires IdsUnique(docs) && i < |docs| && m.id == docs[i].id
    ensures IdsUnique(docs[i := m])
    ensures Lookup(docs[i := m], petId) == Lookup(docs, petId)
  {
    var updated := docs[i := m];
    assert forall j :: 0 <= j < |docs| ==> updated[j].id == docs[j].id;
  }

  /** After the document a text names is removed, that text names nothing. */
  lemma RemovedNotFound(docs: seq<PetModel>, petId: string)
    requires IdsUnique(docs) && Lookup(docs, petId).Some?
    ensures Lookup(Without(docs, Lookup(docs, petId).value), petId).None?
  {
    WithoutEffects(docs, Lookup(docs, petId).value);
  }
}
