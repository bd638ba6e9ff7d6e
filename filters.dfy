/** The filter record as the pages edit it: one field at a time, with
    `{ ...prev, [key]: value }`, and cleared by replacing it with `{}`. */
module Filters {
  import opened Wrappers
  import opened Types

  datatype FilterKey = StartDateKey | EndDateKey | ResearcherIdKey | AgeRangeKey | GenderKey | RegionKey

  /** The keys of the record, in declaration order. */
  const FILTER_KEYS: seq<FilterKey> :=
    [StartDateKey, EndDateKey, ResearcherIdKey, AgeRangeKey, GenderKey, RegionKey]

  /** One field of the record together with the value it holds. */
  datatype FilterEntry =
    | StartDate(startDate: Option<string>)
    | EndDate(endDate: Option<string>)
    | ResearcherId(researcherId: Option<int>)
    | AgeRangeEntry(ageRange: Option<AgeRange>)
    | Gender(gender: Option<string>)
    | RegionEntry(region: Option<Region>)

  function KeyOf(e: FilterEntry): FilterKey {
    match e
    case StartDate(_) => StartDateKey
    case EndDate(_) => EndDateKey
    case ResearcherId(_) => ResearcherIdKey
    case AgeRangeEntry(_) => AgeRangeKey
    case Gender(_) => GenderKey
    case RegionEntry(_) => RegionKey
  }

  /** `filters[key]`, as an entry of that key. */
  function Field(f: SurveyFilters, k: FilterKey): (e: FilterEntry)
    ensures KeyOf(e) == k
  {
    match k
    case StartDateKey => StartDate(f.startDate)
    case EndDateKey => EndDate(f.endDate)
    case ResearcherIdKey => ResearcherId(f.researcherId)
    case AgeRangeKey => AgeRangeEntry(f.ageRange)
    case GenderKey => Gender(f.gender)
    case RegionKey => RegionEntry(f.region)
  }

  /** Whether the entry holds something other than `undefined`. */
  predicate IsSet(e: FilterEntry) {
    match e
    case StartDate(v) => v.Some?
    case EndDate(v) => v.Some?
    case ResearcherId(v) => v.Some?
    case AgeRangeEntry(v) => v.Some?
    case Gender(v) => v.Some?
    case RegionEntry(v) => v.Some?
  }

  /** `{ ...f, [key]: value }`: the entry's field takes the entry's value and
      every other field keeps its value. */
  function With(f: SurveyFilters, e: FilterEntry): (r: SurveyFilters)
    ensures Field(r, KeyOf(e)) == e
    ensures forall k :: k != KeyOf(e) ==> Field(r, k) == Field(f, k)
  {
    match e
    case StartDate(v) => f.(startDate := v)
    case EndDate(v) => f.(endDate := v)
    case ResearcherId(v) => f.(researcherId := v)
    case AgeRangeEntry(v) => f.(ageRange := v)
    case Gender(v) => f.(gender := v)
    case RegionEntry(v) => f.(region := v)
  }

  /** A filter record is determined by what each of its keys reads. */
  lemma FieldsDetermineFilters(a: SurveyFilters, b: SurveyFilters)
    requires forall k :: Field(a, k) == Field(b, k)
    ensures a == b
  {
    assert Field(a, StartDateKey) == Field(b, StartDateKey);
    assert Field(a, EndDateKey) == Field(b, EndDateKey);
    assert Field(a, ResearcherIdKey) == Field(b, ResearcherIdKey);
    assert Field(a, AgeRangeKey) == Field(b, AgeRangeKey);
    assert Field(a, GenderKey) == Field(b, GenderKey);
    assert Field(a, RegionKey) == Field(b, RegionKey);
  }

  /** Writing a field twice keeps only the second write. */
  lemma WithSameKey(f: SurveyFilters, e1: FilterEntry, e2: FilterEntry)
    requires KeyOf(e1) == KeyOf(e2)
    ensures With(With(f, e1), e2) == With(f, e2)
  {
    FieldsDetermineFilters(With(With(f, e1), e2), With(f, e2));
  }

  /** Writes to two different fields commute. */
  lemma WithCommutes(f: SurveyFilters, e1: FilterEntry, e2: FilterEntry)
    requires KeyOf(e1) != KeyOf(e2)
    ensures With(With(f, e1), e2) == With(With(f, e2), e1)
  {
    FieldsDetermineFilters(With(With(f, e1), e2), With(With(f, e2), e1));
  }

  /** Writing back the value a field already holds changes nothing: so setting
      a field and then setting it back to `undefined` restores a record in
      which that field was unset, `{}` in particular. */
  lemma WithOwnField(f: SurveyFilters, k: FilterKey)
    ensures With(f, Field(f, k)) == f
  {
    FieldsDetermineFilters(With(f, Field(f, k)), f);
  }

  /** `{}` leaves every key unset. */
  lemma NoFiltersUnset(k: FilterKey)
    ensures !IsSet(Field(NO_FILTERS, k))
  {
  }
}
