/** The records the dashboard receives from its API and the filter record its
    pages keep, as declared in src/types/index.ts.

    Timestamps are milliseconds since the epoch (the source carries ISO date
    strings and parses them with `new Date`). Coordinates are `real`: the
    model only copies them. */
module Types {
  import opened Wrappers

  datatype User = User(
    id: int,
    nome: string,
    email: string,
    tipo: string,
    ativo: bool,
    criadoEm: string)

  datatype Researcher = Researcher(
    id: int,
    usuarioId: int,
    usuario: Option<User>,
    dispositivoId: string,
    ultimoAcesso: int,
    totalSurveys: Option<int>)

  /** `vai_votar` is declared as a string, yet the analytics page compares it
      with the booleans `true` and `false`: at run time it may be either. */
  datatype VoteAnswer = BoolValue(b: bool) | TextValue(text: string)

  /** A survey record. `pesquisador` is the nested researcher object the
      backend sends along (read by the map-point mapping although the
      declared interface omits it). */
  datatype Survey = Survey(
    id: int,
    pesquisadorId: int,
    dataHora: int,
    latitude: real,
    longitude: real,
    sexo: string,
    idade: int,
    renda: string,
    escolaridade: string,
    religiao: string,
    satisfacaoServicos: string,
    problemas: string,
    conhecePoliticos: string,
    confianca: int,
    politicosConhecidos: string,
    vaiVotar: VoteAnswer,
    influenciaVoto: string,
    interesse: int,
    opiniao: string,
    pesquisador: Option<Researcher>)

  /** The `satisfacao_servicos` answers, survey by survey: what both chart
      pages count. */
  function Answers(surveys: seq<Survey>): (answers: seq<string>)
    ensures |answers| == |surveys|
    ensures forall i :: 0 <= i < |surveys| ==> answers[i] == surveys[i].satisfacaoServicos
  {
    seq(|surveys|, i requires 0 <= i < |surveys| => surveys[i].satisfacaoServicos)
  }

  /** One slot of the `ageRange` pair. The declared type is a number, but the
      age select stores `Number(...)` of the pieces of the chosen option, and
      destructuring a one-piece split leaves the second slot `undefined`. */
  datatype Num = Int(value: int) | NaN | Undefined

  datatype AgeRange = AgeRange(min: Num, max: Num)

  /** A region always carries its centre and radius together. */
  datatype Region = Region(lat: real, lng: real, radius: real)

  /** Every field is optional; `None` stands both for an absent key and for a
      key holding `undefined`, which no reader of the record tells apart. */
  datatype SurveyFilters = SurveyFilters(
    startDate: Option<string>,
    endDate: Option<string>,
    researcherId: Option<int>,
    ageRange: Option<AgeRange>,
    gender: Option<string>,
    region: Option<Region>)

  /** The record `{}`. */
  const NO_FILTERS := SurveyFilters(None, None, None, None, None, None)

  /** A chart with one data set: label i is drawn with value i. */
  datatype ChartData = ChartData(labels: seq<string>, data: seq<nat>)

  datatype MapInfo = MapInfo(
    pesquisador: string,
    dataHora: int,
    idade: Option<int>,
    sexo: Option<string>)

  datatype MapPoint = MapPoint(id: int, lat: real, lng: real, info: MapInfo)

  /** A heat point is the triple [lat, lng, intensity]. */
  datatype HeatPoint = HeatPoint(lat: real, lng: real, intensity: int)

  datatype HeatmapData = HeatmapData(points: seq<HeatPoint>, radius: Option<int>)
}
