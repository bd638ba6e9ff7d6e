/** The pure part of the API client in src/api/index.ts: the query
    parameters `getSurveys` appends for a filter record, and the mappings
    `getMapPoints` and `getHeatmapData` apply to the survey list the server
    returns. The requests themselves are not part of this model. */
module Api {
  import opened Wrappers
  import opened Types
  import opened Strings

  /** The query keys `getSurveys` may append. */
  datatype ParamKey =
    | StartDateParam | EndDateParam | ResearcherIdParam | GenderParam
    | AgeMinParam | AgeMaxParam | LatParam | LngParam | RadiusParam

  function KeyName(k: ParamKey): string {
    match k
    case StartDateParam => "startDate"
    case EndDateParam => "endDate"
    case ResearcherIdParam => "researcherId"
    case GenderParam => "gender"
    case AgeMinParam => "ageMin"
    case AgeMaxParam => "ageMax"
    case LatParam => "lat"
    case LngParam => "lng"
    case RadiusParam => "radius"
  }

  /** The query string spells each key differently, so a key name read back
      from the query names one key only. */
  lemma KeyNamesDistinct(k1: ParamKey, k2: ParamKey)
    ensures KeyName(k1) == KeyName(k2) <==> k1 == k2
  {
  }

  /** Position of a key in the fixed order of the `append` calls. */
  function Rank(k: ParamKey): nat {
    match k
    case StartDateParam => 0
    case EndDateParam => 1
    case ResearcherIdParam => 2
    case GenderParam => 3
    case AgeMinParam => 4
    case AgeMaxParam => 5
    case LatParam => 6
    case LngParam => 7
    case RadiusParam => 8
  }

  /** A parameter value: text, or a coordinate whose decimal rendering by
      `Number.prototype.toString` is not modelled. */
  datatype ParamValue = Text(text: string) | Decimal(number: real)

  datatype Param = Param(key: ParamKey, value: ParamValue)

  function Keys(params: seq<Param>): seq<ParamKey> {
    seq(|params|, i requires 0 <= i < |params| => params[i].key)
  }

  /** What `filters?.field` reads: an absent record reads as `{}`. */
  function Effective(filters: Option<SurveyFilters>): SurveyFilters {
    filters.GetOr(NO_FILTERS)
  }

  /** JavaScript truthiness of an optional string: present and non-empty. */
  predicate TruthyText(v: Option<string>) {
    v.Some? && v.value != ""
  }

  /** JavaScript truthiness of an optional integer: present and non-zero. */
  predicate TruthyId(v: Option<int>) {
    v.Some? && v.value != 0
  }

  /** Whether `getSurveys` appends key `k` for the filter `f`. */
  predicate Emitted(f: SurveyFilters, k: ParamKey) {
    match k
    case StartDateParam => TruthyText(f.startDate)
    case EndDateParam => TruthyText(f.endDate)
    case ResearcherIdParam => TruthyId(f.researcherId)
    case GenderParam => TruthyText(f.gender)
    case AgeMinParam => f.ageRange.Some?
    case AgeMaxParam => f.ageRange.Some?
    case LatParam => f.region.Some?
    case LngParam => f.region.Some?
    case RadiusParam => f.region.Some?
  }

  /** `n.toString()`; an `undefined` slot has no `toString`. */
  function NumText(n: Num): Option<string> {
    match n
    case Int(i) => Some(IntToString(i))
    case NaN => Some("NaN")
    case Undefined => None
  }

  /** Whether building the parameters throws: `ageRange[0].toString()` or
      `ageRange[1].toString()` on an `undefined` slot is a TypeError. */
  predicate ThrowsTypeError(f: SurveyFilters) {
    f.ageRange.Some? && (f.ageRange.value.min.Undefined? || f.ageRange.value.max.Undefined?)
  }

  /** The value appended under key `k`, if it is appended and can be written. */
  function ValueOf(f: SurveyFilters, k: ParamKey): Option<ParamValue> {
    if !Emitted(f, k) then None
    else match k
      case StartDateParam => Some(Text(f.startDate.value))
      case EndDateParam => Some(Text(f.endDate.value))
      case ResearcherIdParam => Some(Text(IntToString(f.researcherId.value)))
      case GenderParam => Some(Text(f.gender.value))
      case AgeMinParam =>
        (match NumText(f.ageRange.value.min) case Some(t) => Some(Text(t)) case None => None)
      case AgeMaxParam =>
        (match NumText(f.ageRange.value.max) case Some(t) => Some(Text(t)) case None => None)
      case LatParam => Some(Decimal(f.region.value.lat))
      case LngParam => Some(Decimal(f.region.value.lng))
      case RadiusParam => Some(Decimal(f.region.value.radius))
  }

  /** Number of `append` sites. */
  const PARAM_COUNT := 9

  /** The key of the `append` site at position `n`: the inverse of `Rank`. */
  function KeyAt(n: nat): (k: ParamKey)
    requires n < PARAM_COUNT
    ensures Rank(k) == n
  {
    if n == 0 then StartDateParam
    else if n == 1 then EndDateParam
    else if n == 2 then ResearcherIdParam
    else if n == 3 then GenderParam
    else if n == 4 then AgeMinParam
    else if n == 5 then AgeMaxParam
    else if n == 6 then LatParam
    else if n == 7 then LngParam
    else RadiusParam
  }

  /** What the `append` site of key `k` contributes. */
  function Contribution(f: SurveyFilters, k: ParamKey): seq<Param> {
    match ValueOf(f, k)
    case Some(v) => [Param(k, v)]
    case None => []
  }

  /** The parameters the first `n` `append` sites contribute. */
  function SerializedPrefix(f: SurveyFilters, n: nat): seq<Param>
    requires n <= PARAM_COUNT
  {
    if n == 0 then [] else SerializedPrefix(f, n - 1) + Contribution(f, KeyAt(n - 1))
  }

  /** The parameter list of a filter record: the contributions of the nine
      `append` sites, in append order. */
  function Serialization(f: SurveyFilters): seq<Param> {
    Contribution(f, StartDateParam) + Contribution(f, EndDateParam) +
    Contribution(f, ResearcherIdParam) + Contribution(f, GenderParam) +
    Contribution(f, AgeMinParam) + Contribution(f, AgeMaxParam) +
    Contribution(f, LatParam) + Contribution(f, LngParam) + Contribution(f, RadiusParam)
  }

  /** The list is the prefix of all nine sites. */
  lemma SerializationIsPrefix(f: SurveyFilters)
    ensures Serialization(f) == SerializedPrefix(f, PARAM_COUNT)
  {
    var p0 := Contribution(f, StartDateParam);
    assert SerializedPrefix(f, 1) == p0;
    var p1 := p0 + Contribution(f, EndDateParam);
    assert SerializedPrefix(f, 2) == p1;
    var p2 := p1 + Contribution(f, ResearcherIdParam);
    assert SerializedPrefix(f, 3) == p2;
    var p3 := p2 + Contribution(f, GenderParam);
    assert SerializedPrefix(f, 4) == p3;
    var p4 := p3 + Contribution(f, AgeMinParam);
    assert SerializedPrefix(f, 5) == p4;
    var p5 := p4 + Contribution(f, AgeMaxParam);
    assert SerializedPrefix(f, 6) == p5;
    var p6 := p5 + Contribution(f, LatParam);
    assert SerializedPrefix(f, 7) == p6;
    var p7 := p6 + Contribution(f, LngParam);
    assert SerializedPrefix(f, 8) == p7;
  }

  /** What each `append` site contributes, written out per key. */
  lemma ContributionBySite(f: SurveyFilters)
    ensures Contribution(f, StartDateParam) ==
      if TruthyText(f.startDate) then [Param(StartDateParam, Text(f.startDate.value))] else []
    ensures Contribution(f, EndDateParam) ==
      if TruthyText(f.endDate) then [Param(EndDateParam, Text(f.endDate.value))] else []
    ensures Contribution(f, ResearcherIdParam) ==
      if TruthyId(f.researcherId) then [Param(ResearcherIdParam, Text(IntToString(f.researcherId.value)))] else []
    ensures Contribution(f, GenderParam) ==
      if TruthyText(f.gender) then [Param(GenderParam, Text(f.gender.value))] else []
    ensures Contribution(f, AgeMinParam) ==
      if f.ageRange.Some? && NumText(f.ageRange.value.min).Some?
      then [Param(AgeMinParam, Text(NumText(f.ageRange.value.min).value))] else []
    ensures Contribution(f, AgeMaxParam) ==
      if f.ageRange.Some? && NumText(f.ageRange.value.max).Some?
      then [Param(AgeMaxParam, Text(NumText(f.ageRange.value.max).value))] else []
    ensures ThrowsTypeError(f) <==>
      f.ageRange.Some? && (NumText(f.ageRange.value.min).None? || NumText(f.ageRange.value.max).None?)
    ensures Contribution(f, LatParam) ==
      if f.region.Some? then [Param(LatParam, Decimal(f.region.value.lat))] else []
    ensures Contribution(f, LngParam) ==
      if f.region.Some? then [Param(LngParam, Decimal(f.region.value.lng))] else []
    ensures Contribution(f, RadiusParam) ==
      if f.region.Some? then [Param(RadiusParam, Decimal(f.region.value.radius))] else []
  {
  }

  /** `URLSearchParams` as `getSurveys` builds it, one `append` at a time.
      Reading `toString` of an `undefined` age slot throws a TypeError. */
  method SearchParams(filters: Option<SurveyFilters>) returns (r: Result<seq<Param>, string>)
    ensures r.Failure? <==> ThrowsTypeError(Effective(filters))
    ensures r.Success? ==> r.value == Serialization(Effective(filters))
  {
    var f := Effective(filters);
    var params := AppendTextParams(f);
    var withAge := AppendAgeParams(f, params);
    if withAge.Failure? {
      return Failure(withAge.error);
    }
    params := AppendRegionParams(f, withAge.value);
    r := Success(params);
  }

  /** The first four `append` sites: the dates, the researcher and the
      gender, each when truthy. */
  method AppendTextParams(f: SurveyFilters) returns (params: seq<Param>)
    ensures params == Contribution(f, StartDateParam) + Contribution(f, EndDateParam) +
      Contribution(f, ResearcherIdParam) + Contribution(f, GenderParam)
  {
    ContributionBySite(f);
    params := [];
    ghost var sent := Contribution(f, StartDateParam);
    if TruthyText(f.startDate) {
      params := params + [Param(StartDateParam, Text(f.startDate.value))];
    }
    assert params == sent;
    sent := sent + Contribution(f, EndDateParam);
    if TruthyText(f.endDate) {
      params := params + [Param(EndDateParam, Text(f.endDate.value))];
    }
    assert params == sent;
    sent := sent + Contribution(f, ResearcherIdParam);
    if TruthyId(f.researcherId) {
      params := params + [Param(ResearcherIdParam, Text(IntToString(f.researcherId.value)))];
    }
    assert params == sent;
    sent := sent + Contribution(f, GenderParam);
    if TruthyText(f.gender) {
      params := params + [Param(GenderParam, Text(f.gender.value))];
    }
    assert params == sent;
  }

  /** The two age sites: `ageRange[0].toString()` and then
      `ageRange[1].toString()`, either of which throws on `undefined`. */
  method AppendAgeParams(f: SurveyFilters, params: seq<Param>) returns (r: Result<seq<Param>, string>)
    ensures r.Failure? <==> ThrowsTypeError(f)
    ensures r.Success? ==> r.value == params + Contribution(f, AgeMinParam) + Contribution(f, AgeMaxParam)
  {
    ContributionBySite(f);
    if f.ageRange.None? {
      assert params == params + [] + [];
      return Success(params);
    }
    var min := NumText(f.ageRange.value.min);
    if min.None? {
      return Failure("TypeError");
    }
    var withMin := params + [Param(AgeMinParam, Text(min.value))];
    var max := NumText(f.ageRange.value.max);
    if max.None? {
      return Failure("TypeError");
    }
    r := Success(withMin + [Param(AgeMaxParam, Text(max.value))]);
  }

  /** The three region sites, all present or all absent. */
  method AppendRegionParams(f: SurveyFilters, params: seq<Param>) returns (out: seq<Param>)
    ensures out == params + Contribution(f, LatParam) + Contribution(f, LngParam) + Contribution(f, RadiusParam)
  {
    ContributionBySite(f);
    out := params;
    if f.region.Some? {
      var region := f.region.value;
      out := out + [Param(LatParam, Decimal(region.lat))];
      out := out + [Param(LngParam, Decimal(region.lng))];
      out := out + [Param(RadiusParam, Decimal(region.radius))];
    } else {
      assert out == params + [] + [] + [];
    }
  }

  /** Every parameter of the first `n` append sites has a key among the
      first `n` and carries that key's value. */
  lemma {:induction false} PrefixValues(f: SurveyFilters, n: nat)
    requires n <= PARAM_COUNT
    ensures forall i :: 0 <= i < |SerializedPrefix(f, n)| ==>
      Rank(SerializedPrefix(f, n)[i].key) < n &&
      ValueOf(f, SerializedPrefix(f, n)[i].key) == Some(SerializedPrefix(f, n)[i].value)
  {
    if n > 0 {
      PrefixValues(f, n - 1);
      var prev := SerializedPrefix(f, n - 1);
      var cur := SerializedPrefix(f, n);
      assert cur == prev + Contribution(f, KeyAt(n - 1));
      forall i | 0 <= i < |cur|
        ensures Rank(cur[i].key) < n && ValueOf(f, cur[i].key) == Some(cur[i].value)
      {
        if i < |prev| {
          assert cur[i] == prev[i];
        }
      }
    }
  }

  /** The parameters of the first `n` append sites are in strictly
      increasing append order. */
  lemma {:induction false} PrefixOrdered(f: SurveyFilters, n: nat)
    requires n <= PARAM_COUNT
    ensures forall i, j :: 0 <= i < j < |SerializedPrefix(f, n)| ==>
      Rank(SerializedPrefix(f, n)[i].key) < Rank(SerializedPrefix(f, n)[j].key)
  {
    if n > 0 {
      PrefixOrdered(f, n - 1);
      PrefixValues(f, n - 1);
      var prev := SerializedPrefix(f, n - 1);
      var cur := SerializedPrefix(f, n);
      assert cur == prev + Contribution(f, KeyAt(n - 1));
      forall i, j | 0 <= i < j < |cur| ensures Rank(cur[i].key) < Rank(cur[j].key) {
        assert cur[i] == prev[i];
        if j < |prev| {
          assert cur[j] == prev[j];
        }
      }
    }
  }

  /** A key among the first `n` is sent by them exactly when it has a value. */
  lemma {:induction false} PrefixKeys(f: SurveyFilters, n: nat)
    requires n <= PARAM_COUNT
    ensures forall k :: Rank(k) < n ==> (k in Keys(SerializedPrefix(f, n)) <==> ValueOf(f, k).Some?)
  {
    if n > 0 {
      PrefixKeys(f, n - 1);
      PrefixValues(f, n - 1);
      var prev := SerializedPrefix(f, n - 1);
      var k := KeyAt(n - 1);
      var cur := SerializedPrefix(f, n);
      assert Keys(cur) == Keys(prev) + Keys(Contribution(f, k));
      assert k !in Keys(prev) by {
        forall i | 0 <= i < |prev| ensures prev[i].key != k {
        }
      }
      var added := Keys(Contribution(f, k));
      assert added == (if ValueOf(f, k).Some? then [k] else []);
      forall k' | Rank(k') < n ensures k' in Keys(cur) <==> ValueOf(f, k').Some? {
        if k' != k {
          assert Rank(k') < n - 1;
          assert k' !in added;
        }
      }
    }
  }

  /** The first `n` append sites contribute exactly the keys among the first
      `n` that have a value, each once, in append order, with that value. */
  lemma SerializedPrefixSpec(f: SurveyFilters, n: nat)
    requires n <= PARAM_COUNT
    ensures forall i :: 0 <= i < |SerializedPrefix(f, n)| ==>
      Rank(SerializedPrefix(f, n)[i].key) < n &&
      ValueOf(f, SerializedPrefix(f, n)[i].key) == Some(SerializedPrefix(f, n)[i].value)
    ensures forall i, j :: 0 <= i < j < |SerializedPrefix(f, n)| ==>
      Rank(SerializedPrefix(f, n)[i].key) < Rank(SerializedPrefix(f, n)[j].key)
    ensures forall k :: Rank(k) < n ==> (k in Keys(SerializedPrefix(f, n)) <==> ValueOf(f, k).Some?)
  {
    PrefixValues(f, n);
    PrefixOrdered(f, n);
    PrefixKeys(f, n);
  }

  /** The prefix of all nine sites holds exactly the emitted keys, in
      append order, each with its value. */
  lemma FullPrefixMeaning(f: SurveyFilters, s: seq<Param>)
    requires !ThrowsTypeError(f) && s == SerializedPrefix(f, PARAM_COUNT)
    ensures forall k :: k in Keys(s) <==> Emitted(f, k)
    ensures forall i, j :: 0 <= i < j < |s| ==> Rank(s[i].key) < Rank(s[j].key)
    ensures forall i :: 0 <= i < |s| ==> ValueOf(f, s[i].key) == Some(s[i].value)
  {
    SerializedPrefixSpec(f, PARAM_COUNT);
    forall k ensures Rank(k) < PARAM_COUNT && (ValueOf(f, k).Some? <==> Emitted(f, k)) {
    }
  }

  /** When it does not throw, `getSurveys` sends exactly the keys whose fields
      are truthy (the age pair and the region triple whenever present), each
      once, in the fixed order startDate, endDate, researcherId, gender,
      ageMin, ageMax, lat, lng, radius, each with its field's value. */
  lemma SerializationMeaning(f: SurveyFilters)
    requires !ThrowsTypeError(f)
    ensures forall k :: k in Keys(Serialization(f)) <==> Emitted(f, k)
    ensures forall i, j :: 0 <= i < j < |Serialization(f)| ==>
      Rank(Serialization(f)[i].key) < Rank(Serialization(f)[j].key)
    ensures forall i :: 0 <= i < |Serialization(f)| ==>
      ValueOf(f, Serialization(f)[i].key) == Some(Serialization(f)[i].value)
  {
    SerializationIsPrefix(f);
    FullPrefixMeaning(f, Serialization(f));
  }

  /** No filter record, or `{}`, sends no parameter at all. */
  lemma EmptyFiltersSendNothing(filters: Option<SurveyFilters>)
    requires filters.None? || filters == Some(NO_FILTERS)
    ensures !ThrowsTypeError(Effective(filters))
    ensures Serialization(Effective(filters)) == []
  {
    SerializationMeaning(Effective(filters));
  }

  /** The name shown for the researcher of a survey:
      `survey.pesquisador?.usuario?.nome || "Desconhecido"`. */
  const UNKNOWN_RESEARCHER := "Desconhecido"

  predicate HasResearcherName(s: Survey) {
    s.pesquisador.Some? && s.pesquisador.value.usuario.Some? && s.pesquisador.value.usuario.value.nome != ""
  }

  function ResearcherName(s: Survey): (name: string)
    ensures name != ""
    ensures HasResearcherName(s) ==> name == s.pesquisador.value.usuario.value.nome
    ensures !HasResearcherName(s) ==> name == UNKNOWN_RESEARCHER
  {
    if HasResearcherName(s) then s.pesquisador.value.usuario.value.nome else UNKNOWN_RESEARCHER
  }

  /** The point of one survey. */
  function PointOf(s: Survey): (p: MapPoint)
    ensures p.id == s.id && p.lat == s.latitude && p.lng == s.longitude
    ensures p.info.dataHora == s.dataHora && p.info.idade == Some(s.idade) && p.info.sexo == Some(s.sexo)
    ensures p.info.pesquisador != ""
    ensures HasResearcherName(s) ==> p.info.pesquisador == s.pesquisador.value.usuario.value.nome
    ensures !HasResearcherName(s) ==> p.info.pesquisador == UNKNOWN_RESEARCHER
  {
    MapPoint(s.id, s.latitude, s.longitude, MapInfo(ResearcherName(s), s.dataHora, Some(s.idade), Some(s.sexo)))
  }

  /** `getMapPoints`: one point per survey, in order, carrying the survey's
      id, coordinates, timestamp, age and gender and its researcher's name. */
  function MapPoints(surveys: seq<Survey>): (points: seq<MapPoint>)
    ensures |points| == |surveys|
    ensures forall i :: 0 <= i < |surveys| ==>
      points[i].id == surveys[i].id &&
      points[i].lat == surveys[i].latitude && points[i].lng == surveys[i].longitude &&
      points[i].info.dataHora == surveys[i].dataHora &&
      points[i].info.idade == Some(surveys[i].idade) && points[i].info.sexo == Some(surveys[i].sexo) &&
      points[i].info.pesquisador == ResearcherName(surveys[i])
  {
    if surveys == [] then [] else [PointOf(surveys[0])] + MapPoints(surveys[1..])
  }

  const HEATMAP_RADIUS := 25

  /** `getHeatmapData`: one unit-intensity triple per survey, in order, and
      the fixed radius 25. */
  function Heatmap(surveys: seq<Survey>): (h: HeatmapData)
    ensures h.radius == Some(HEATMAP_RADIUS)
    ensures |h.points| == |surveys|
    ensures forall i :: 0 <= i < |surveys| ==>
      h.points[i] == HeatPoint(surveys[i].latitude, surveys[i].longitude, 1)
  {
    HeatmapData(HeatPoints(surveys), Some(HEATMAP_RADIUS))
  }

  function HeatPoints(surveys: seq<Survey>): (points: seq<HeatPoint>)
    ensures |points| == |surveys|
    ensures forall i :: 0 <= i < |surveys| ==>
      points[i] == HeatPoint(surveys[i].latitude, surveys[i].longitude, 1)
  {
    if surveys == [] then [] else [HeatPoint(surveys[0].latitude, surveys[0].longitude, 1)] + HeatPoints(surveys[1..])
  }

  /** The heat map and the point map of the same survey list put their i-th
      entries at the same place. */
  lemma HeatmapMatchesMapPoints(surveys: seq<Survey>)
    ensures |Heatmap(surveys).points| == |MapPoints(surveys)|
    ensures forall i :: 0 <= i < |surveys| ==>
      Heatmap(surveys).points[i].lat == MapPoints(surveys)[i].lat &&
      Heatmap(surveys).points[i].lng == MapPoints(surveys)[i].lng
  {
  }
}
