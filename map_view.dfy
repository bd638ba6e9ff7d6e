/** The map page, src/pages/MapView.tsx: its filter record, edited one field
    at a time, the point/heat-map switch and the summary cards. */
module MapView {
  import opened Wrappers
  import opened Types
  import opened Tally
  import opened Strings
  import opened Filters
  import Api

  datatype MapMode = Points | Heatmap

  // ---------------------------------------------------------------------
  // Summary cards

  /** Position of each key in the record's declaration order. */
  function KeyIndex(k: FilterKey): (i: nat)
    ensures i < |FILTER_KEYS| && FILTER_KEYS[i] == k
  {
    match k
    case StartDateKey => 0
    case EndDateKey => 1
    case ResearcherIdKey => 2
    case AgeRangeKey => 3
    case GenderKey => 4
    case RegionKey => 5
  }

  /** For each key, whether its value is not `undefined`. */
  function AppliedFlags(f: SurveyFilters): (flags: seq<bool>)
    ensures |flags| == |FILTER_KEYS|
    ensures forall i :: 0 <= i < |FILTER_KEYS| ==> flags[i] == IsSet(Field(f, FILTER_KEYS[i]))
  {
    seq(|FILTER_KEYS|, i requires 0 <= i < |FILTER_KEYS| => IsSet(Field(f, FILTER_KEYS[i])))
  }

  /** No key is set exactly in the empty record. */
  lemma NoFlagsMeansEmpty(f: SurveyFilters)
    ensures true !in AppliedFlags(f) <==> f == NO_FILTERS
  {
    var flags := AppliedFlags(f);
    if true !in flags {
      forall k ensures Field(f, k) == Field(NO_FILTERS, k) {
        assert !flags[KeyIndex(k)];
      }
      FieldsDetermineFilters(f, NO_FILTERS);
    }
  }

  /** "Filtros Aplicados": the number of keys whose value is not `undefined`.
      At most six, and none exactly for the empty record. */
  function AppliedFilterCount(f: SurveyFilters): (n: nat)
    ensures n <= |FILTER_KEYS|
    ensures n == 0 <==> f == NO_FILTERS
  {
    NoFlagsMeansEmpty(f);
    CountZero(AppliedFlags(f), true);
    Count(AppliedFlags(f), true)
  }

  /** Writing one field changes the count by that field alone: writing a
      value over `undefined` adds one, writing `undefined` over a value
      (choosing "Todos") takes one away, anything else leaves it. */
  lemma AppliedFilterCountAfterWith(f: SurveyFilters, e: FilterEntry)
    ensures AppliedFilterCount(With(f, e)) + (if IsSet(Field(f, KeyOf(e))) then 1 else 0) ==
            AppliedFilterCount(f) + (if IsSet(e) then 1 else 0)
  {
    var i := KeyIndex(KeyOf(e));
    var before := AppliedFlags(f);
    var after := AppliedFlags(With(f, e));
    assert after == before[i := IsSet(e)];
    CountUpdate(before, i, IsSet(e), true);
  }

  /** The names on the points. */
  function Names(points: seq<MapPoint>): (names: seq<string>)
    ensures |names| == |points|
    ensures forall i :: 0 <= i < |points| ==> names[i] == points[i].info.pesquisador
  {
    seq(|points|, i requires 0 <= i < |points| => points[i].info.pesquisador)
  }

  /** "Pesquisadores Ativos": the size of the set of researcher names on the
      points, 0 while the points have not arrived. */
  function DistinctResearcherCount(points: Option<seq<MapPoint>>): (n: nat)
    ensures points.None? ==> n == 0
    ensures points.Some? ==> n <= |points.value|
    ensures points.Some? && points.value != [] ==> n >= 1
  {
    match points
    case None => 0
    case Some(ps) =>
      ElementsBound(Names(ps));
      |Elements(Names(ps))|
  }

  /** Points that all carry the same name count as one researcher. */
  lemma OneName(points: seq<MapPoint>, name: string)
    requires points != []
    requires forall i :: 0 <= i < |points| ==> points[i].info.pesquisador == name
    ensures DistinctResearcherCount(Some(points)) == 1
  {
    var names := Names(points);
    assert Elements(names) == {name} by {
      assert names[0] in Elements(names);
    }
  }

  /** Points whose survey has no researcher name all read "Desconhecido", so
      any number of them counts as one researcher. */
  lemma UnnamedResearchersCollapse(surveys: seq<Survey>)
    requires surveys != []
    requires forall i :: 0 <= i < |surveys| ==> !Api.HasResearcherName(surveys[i])
    ensures DistinctResearcherCount(Some(Api.MapPoints(surveys))) == 1
  {
    OneName(Api.MapPoints(surveys), Api.UNKNOWN_RESEARCHER);
  }

  /** The names of the surveys that carry a non-empty researcher name. */
  function NamedResearchers(surveys: seq<Survey>): set<string> {
    set i | 0 <= i < |surveys| && Api.HasResearcherName(surveys[i]) :: surveys[i].pesquisador.value.usuario.value.nome
  }

  predicate SomeUnnamed(surveys: seq<Survey>) {
    exists i :: 0 <= i < |surveys| && !Api.HasResearcherName(surveys[i])
  }

  /** The names counted by "Pesquisadores Ativos", for any list of surveys:
      every researcher name that occurs, plus a single "Desconhecido" when
      at least one survey has none. */
  lemma ResearcherNamesOnMap(surveys: seq<Survey>)
    ensures Elements(Names(Api.MapPoints(surveys))) ==
      NamedResearchers(surveys) + (if SomeUnnamed(surveys) then {Api.UNKNOWN_RESEARCHER} else {})
  {
    var names := Names(Api.MapPoints(surveys));
    assert forall i :: 0 <= i < |surveys| ==> names[i] == Api.ResearcherName(surveys[i]);
    NamesCome(surveys, names);
    NamesShown(surveys, names);
  }

  /** Every name on the map is a researcher's name or "Desconhecido". */
  lemma NamesCome(surveys: seq<Survey>, names: seq<string>)
    requires |names| == |surveys|
    requires forall i :: 0 <= i < |surveys| ==> names[i] == Api.ResearcherName(surveys[i])
    ensures Elements(names) <=
      NamedResearchers(surveys) + (if SomeUnnamed(surveys) then {Api.UNKNOWN_RESEARCHER} else {})
  {
    forall x | x in Elements(names)
      ensures x in NamedResearchers(surveys) || (SomeUnnamed(surveys) && x == Api.UNKNOWN_RESEARCHER)
    {
      var i :| 0 <= i < |names| && names[i] == x;
      if !Api.HasResearcherName(surveys[i]) {
        assert SomeUnnamed(surveys);
      }
    }
  }

  /** Every researcher's name, and "Desconhecido" when a survey has none,
      is on the map. */
  lemma NamesShown(surveys: seq<Survey>, names: seq<string>)
    requires |names| == |surveys|
    requires forall i :: 0 <= i < |surveys| ==> names[i] == Api.ResearcherName(surveys[i])
    ensures NamedResearchers(surveys) <= Elements(names)
    ensures SomeUnnamed(surveys) ==> Api.UNKNOWN_RESEARCHER in Elements(names)
  {
    forall x | x in NamedResearchers(surveys) ensures x in Elements(names) {
      var i :| 0 <= i < |surveys| && Api.HasResearcherName(surveys[i]) &&
        surveys[i].pesquisador.value.usuario.value.nome == x;
      assert names[i] == x;
    }
    if SomeUnnamed(surveys) {
      var i :| 0 <= i < |surveys| && !Api.HasResearcherName(surveys[i]);
      assert names[i] == Api.UNKNOWN_RESEARCHER;
    }
  }

  /** "Total de Pontos no Mapa": `mapPoints?.length || 0`. */
  function PointCount(points: Option<seq<MapPoint>>): (n: nat)
    ensures points.None? ==> n == 0
    ensures points.Some? ==> n == |points.value|
  {
    match points
    case None => 0
    case Some(ps) => |ps|
  }

  /** The spinner follows the query of the mode on screen. */
  function IsLoading(mode: MapMode, pointsLoading: bool, heatmapLoading: bool): (loading: bool)
    ensures mode == Points ==> loading == pointsLoading
    ensures mode == Heatmap ==> loading == heatmapLoading
  {
    match mode
    case Points => pointsLoading
    case Heatmap => heatmapLoading
  }

  // ---------------------------------------------------------------------
  // Page state

  class MapViewPage {
    var filters: SurveyFilters
    var mapView: MapMode
    var filtersOpen: bool

    constructor()
      ensures filters == NO_FILTERS && mapView == Points && !filtersOpen
    {
      filters := NO_FILTERS;
      mapView := Points;
      filtersOpen := false;
    }

    method ToggleFilters()
      modifies this
      ensures filtersOpen == !old(filtersOpen)
      ensures filters == old(filters) && mapView == old(mapView)
    {
      filtersOpen := !filtersOpen;
    }

    /** `handleFilterChange(key, value)`: `{ ...prev, [key]: value }`. */
    method HandleFilterChange(e: FilterEntry)
      modifies this
      ensures filters == With(old(filters), e)
      ensures mapView == old(mapView) && filtersOpen == old(filtersOpen)
    {
      filters := With(filters, e);
    }

    /** "Limpar Filtros". */
    method ClearFilters()
      modifies this
      ensures filters == NO_FILTERS
      ensures mapView == old(mapView) && filtersOpen == old(filtersOpen)
    {
      filters := NO_FILTERS;
    }

    /** "Aplicar Filtros" only closes the panel. */
    method ApplyFilters()
      modifies this
      ensures !filtersOpen
      ensures filters == old(filters) && mapView == old(mapView)
    {
      filtersOpen := false;
    }

    /** The "Pontos" and "Mapa de Calor" buttons. */
    method SetMapView(mode: MapMode)
      modifies this
      ensures mapView == mode
      ensures filters == old(filters) && filtersOpen == old(filtersOpen)
    {
      mapView := mode;
    }

    method SetStartDate(value: string)
      modifies this
      ensures filters == With(old(filters), StartDate(Some(value)))
      ensures mapView == old(mapView) && filtersOpen == old(filtersOpen)
    {
      HandleFilterChange(StartDate(Some(value)));
    }

    method SetEndDate(value: string)
      modifies this
      ensures filters == With(old(filters), EndDate(Some(value)))
      ensures mapView == old(mapView) && filtersOpen == old(filtersOpen)
    {
      HandleFilterChange(EndDate(Some(value)));
    }

    /** The researcher select: "Todos" (None) has the value "", and stores
        `undefined`; a researcher's option has the id as its value, which
        `parseInt` reads back to that id. */
    method SelectResearcher(choice: Option<int>)
      modifies this
      ensures filters == With(old(filters), ResearcherId(choice))
      ensures mapView == old(mapView) && filtersOpen == old(filtersOpen)
    {
      var value := match choice case None => "" case Some(id) => IntToString(id);
      if value != "" {
        ParseIntToString(choice.value);
        HandleFilterChange(ResearcherId(ParseInt(value)));
      } else {
        HandleFilterChange(ResearcherId(None));
      }
    }

    /** The gender select: `e.target.value || undefined`, so "Todos" stores
        `undefined`. */
    method SelectGender(value: string)
      modifies this
      ensures value == "" ==> filters == With(old(filters), Gender(None))
      ensures value != "" ==> filters == With(old(filters), Gender(Some(value)))
      ensures mapView == old(mapView) && filtersOpen == old(filtersOpen)
    {
      HandleFilterChange(Gender(if value == "" then None else Some(value)));
    }
  }
}
