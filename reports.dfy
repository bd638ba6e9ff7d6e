/** The reports page, src/pages/Reports.tsx: the table rows derived from
    the surveys, the page count under the table and the filter panel.

    The date column (`dd/MM/yyyy HH:mm` through date-fns) and the location
    column (two `toFixed(4)` values) are abstracted as the parameters
    `formatDate` and `formatPlace`. */
module Reports {
  import opened Wrappers
  import opened Types
  import opened Strings
  import opened Filters

  datatype ReportRow = ReportRow(
    id: int,
    pesquisador: string,
    data: string,
    localizacao: string,
    perfil: string,
    satisfacao: string,
    interesse: string)

  const RESEARCHER_PREFIX := "Pesquisador "
  const AGE_SUFFIX := " anos, "
  const INTEREST_SUFFIX := "/10"

  /** One row of the report for one survey. */
  function RowOf(s: Survey, formatDate: int -> string, formatPlace: (real, real) -> string): (row: ReportRow)
    ensures row.id == s.id && row.satisfacao == s.satisfacaoServicos
    ensures row.data == formatDate(s.dataHora) && row.localizacao == formatPlace(s.latitude, s.longitude)
    ensures |row.pesquisador| > |RESEARCHER_PREFIX| && row.pesquisador[..|RESEARCHER_PREFIX|] == RESEARCHER_PREFIX
    ensures |row.interesse| > |INTEREST_SUFFIX| && row.interesse[|row.interesse| - |INTEREST_SUFFIX|..] == INTEREST_SUFFIX
    ensures |row.perfil| >= |s.sexo| && row.perfil[|row.perfil| - |s.sexo|..] == s.sexo
  {
    ReportRow(
      s.id,
      RESEARCHER_PREFIX + IntToString(s.pesquisadorId),
      formatDate(s.dataHora),
      formatPlace(s.latitude, s.longitude),
      IntToString(s.idade) + AGE_SUFFIX + s.sexo,
      s.satisfacaoServicos,
      IntToString(s.interesse) + INTEREST_SUFFIX)
  }

  /** `surveys.map(...)`: one row per survey, in the same order. */
  function ReportRows(surveys: seq<Survey>, formatDate: int -> string, formatPlace: (real, real) -> string)
    : (rows: seq<ReportRow>)
    ensures |rows| == |surveys|
    ensures forall i :: 0 <= i < |surveys| ==> rows[i] == RowOf(surveys[i], formatDate, formatPlace)
  {
    if surveys == [] then [] else [RowOf(surveys[0], formatDate, formatPlace)] + ReportRows(surveys[1..], formatDate, formatPlace)
  }

  /** `generateReport`: no rows while the surveys have not arrived. */
  function GenerateReport(surveys: Option<seq<Survey>>, formatDate: int -> string, formatPlace: (real, real) -> string)
    : (rows: seq<ReportRow>)
    ensures surveys.None? ==> rows == []
    ensures surveys.Some? ==> |rows| == |surveys.value|
    ensures surveys.Some? ==> forall i :: 0 <= i < |rows| ==>
      rows[i].id == surveys.value[i].id && rows[i].satisfacao == surveys.value[i].satisfacaoServicos
  {
    match surveys
    case None => []
    case Some(s) => ReportRows(s, formatDate, formatPlace)
  }

  /** A written integer holds only digits and possibly a leading '-'. */
  lemma SeparatorNotInNumeral(i: int, sep: char)
    requires sep != '-' && !IsDigit(sep)
    ensures sep !in IntToString(i)
  {
    if i < 0 {
      assert IntToString(i) == "-" + NatToString(-i);
    }
  }

  /** The researcher column ends in the researcher's id, not the nested
      name. */
  lemma ResearcherColumnReadBack(s: Survey, formatDate: int -> string, formatPlace: (real, real) -> string)
    ensures var row := RowOf(s, formatDate, formatPlace);
      row.pesquisador[..|RESEARCHER_PREFIX|] == RESEARCHER_PREFIX &&
      ParseInt(row.pesquisador[|RESEARCHER_PREFIX|..]) == Some(s.pesquisadorId)
  {
    var row := RowOf(s, formatDate, formatPlace);
    ParseIntToString(s.pesquisadorId);
    assert row.pesquisador[|RESEARCHER_PREFIX|..] == IntToString(s.pesquisadorId);
  }

  /** The profile column starts with the age as its first word and ends
      with the gender. */
  lemma ProfileColumnReadBack(s: Survey, formatDate: int -> string, formatPlace: (real, real) -> string)
    ensures var row := RowOf(s, formatDate, formatPlace);
      ParseInt(Split(row.perfil, ' ')[0]) == Some(s.idade) &&
      row.perfil[|row.perfil| - |s.sexo|..] == s.sexo
  {
    var row := RowOf(s, formatDate, formatPlace);
    ParseIntToString(s.idade);
    SeparatorNotInNumeral(s.idade, ' ');
    assert row.perfil == IntToString(s.idade) + [' '] + ("anos, " + s.sexo);
    SplitAtSeparator(IntToString(s.idade), "anos, " + s.sexo, ' ');
  }

  /** The interest column is the interest over 10. */
  lemma InterestColumnReadBack(s: Survey, formatDate: int -> string, formatPlace: (real, real) -> string)
    ensures var row := RowOf(s, formatDate, formatPlace);
      Split(row.interesse, '/') == [IntToString(s.interesse), "10"] &&
      ParseInt(Split(row.interesse, '/')[0]) == Some(s.interesse)
  {
    var row := RowOf(s, formatDate, formatPlace);
    ParseIntToString(s.interesse);
    SeparatorNotInNumeral(s.interesse, '/');
    assert row.interesse == IntToString(s.interesse) + ['/'] + "10";
    SplitAtSeparator(IntToString(s.interesse), "10", '/');
    SplitWithoutSeparator("10", '/');
  }

  const ROWS_PER_PAGE := 10

  /** "Página 1 de N": `Math.ceil(rows / 10)`, the fewest pages of ten that
      hold every row; 0 for an empty report. */
  function PageCount(rows: nat): (pages: nat)
    ensures ROWS_PER_PAGE * pages >= rows
    ensures pages == 0 || ROWS_PER_PAGE * (pages - 1) < rows
    ensures pages == 0 <==> rows == 0
  {
    (rows + ROWS_PER_PAGE - 1) / ROWS_PER_PAGE
  }

  // ---------------------------------------------------------------------
  // Page state

  /** The report type the page starts with and returns to on "Limpar Filtros". */
  const DEFAULT_REPORT := "daily"

  class ReportsPage {
    var filters: SurveyFilters
    var filtersOpen: bool
    var selectedReport: string

    constructor()
      ensures filters == NO_FILTERS && !filtersOpen && selectedReport == DEFAULT_REPORT
    {
      filters := NO_FILTERS;
      filtersOpen := false;
      selectedReport := DEFAULT_REPORT;
    }

    method ToggleFilters()
      modifies this
      ensures filtersOpen == !old(filtersOpen)
      ensures filters == old(filters) && selectedReport == old(selectedReport)
    {
      filtersOpen := !filtersOpen;
    }

    method SetStartDate(value: string)
      modifies this
      ensures filters == With(old(filters), StartDate(Some(value)))
      ensures filtersOpen == old(filtersOpen) && selectedReport == old(selectedReport)
    {
      filters := With(filters, StartDate(Some(value)));
    }

    method SetEndDate(value: string)
      modifies this
      ensures filters == With(old(filters), EndDate(Some(value)))
      ensures filtersOpen == old(filtersOpen) && selectedReport == old(selectedReport)
    {
      filters := With(filters, EndDate(Some(value)));
    }

    /** The "Tipo de Relatório" select; the rows do not depend on it. */
    method SelectReport(value: string)
      modifies this
      ensures selectedReport == value
      ensures filters == old(filters) && filtersOpen == old(filtersOpen)
    {
      selectedReport := value;
    }

    /** "Limpar Filtros" resets both the filter and the report type. */
    method ClearFilters()
      modifies this
      ensures filters == NO_FILTERS && selectedReport == DEFAULT_REPORT
      ensures filtersOpen == old(filtersOpen)
    {
      filters := NO_FILTERS;
      selectedReport := DEFAULT_REPORT;
    }

    method ApplyFilters()
      modifies this
      ensures !filtersOpen
      ensures filters == old(filters) && selectedReport == old(selectedReport)
    {
      filtersOpen := false;
    }
  }
}
