/** The analytics page, src/pages/Analytics.tsx: the statistics card, the
    three charts built by `prepareChartData` (six age bands, the satisfaction
    object, the voting intention) and the filter panel. */
module Analytics {
  import opened Wrappers
  import opened Types
  import opened Tally
  import opened Strings
  import opened Filters
  import Api
  import opened PropertyOrder

  // ---------------------------------------------------------------------
  // Statistics

  /** `stats?.totalSurveys || 0`: the number of surveys, or 0 while the
      surveys have not arrived (the averages are not modelled). */
  function TotalSurveys(surveys: Option<seq<Survey>>): (n: nat)
    ensures surveys.None? ==> n == 0
    ensures surveys.Some? ==> n == |surveys.value|
  {
    match surveys
    case None => 0
    case Some(s) => |s|
  }

  // ---------------------------------------------------------------------
  // Age bands: six of them here, split at 65 as well

  const AGE_LABELS: seq<string> := ["18-24", "25-34", "35-44", "45-54", "55-64", "65+"]

  /** The cut points of the if/else chain: band k starts at AGE_CUTS[k - 1]. */
  const AGE_CUTS: seq<int> := [25, 35, 45, 55, 65]

  /** The band the if/else chain picks: the number of cut points at or below
      the age. */
  function AgeBand(idade: int): (b: nat)
    ensures b < |AGE_LABELS|
    ensures forall k :: 0 <= k < |AGE_CUTS| ==> (k < b <==> AGE_CUTS[k] <= idade)
  {
    if idade < 25 then 0
    else if idade < 35 then 1
    else if idade < 45 then 2
    else if idade < 55 then 3
    else if idade < 65 then 4
    else 5
  }

  function AgeLabels(surveys: seq<Survey>): (labels: seq<string>)
    ensures |labels| == |surveys|
    ensures forall i :: 0 <= i < |surveys| ==> labels[i] in AGE_LABELS
  {
    seq(|surveys|, i requires 0 <= i < |surveys| => AGE_LABELS[AgeBand(surveys[i].idade)])
  }

  lemma AgeLabelsDistinct()
    ensures Distinct(AGE_LABELS)
  {
  }

  /** The `forEach` that increments one field of `ageGroups` per survey. */
  method CountAgeGroups(surveys: seq<Survey>) returns (groups: seq<nat>)
    ensures groups == Histogram(AgeLabels(surveys), AGE_LABELS)
  {
    AgeLabelsDistinct();
    groups := [0, 0, 0, 0, 0, 0];
    var i := 0;
    while i < |surveys|
      invariant 0 <= i <= |surveys|
      invariant groups == Histogram(AgeLabels(surveys[..i]), AGE_LABELS)
    {
      var s := surveys[i];
      assert AgeLabels(surveys[..i + 1]) == AgeLabels(surveys[..i]) + [AGE_LABELS[AgeBand(s.idade)]];
      HistogramHit(AgeLabels(surveys[..i]), AGE_LABELS, AgeBand(s.idade));
      if s.idade < 25 {
        groups := groups[0 := groups[0] + 1];
      } else if s.idade < 35 {
        groups := groups[1 := groups[1] + 1];
      } else if s.idade < 45 {
        groups := groups[2 := groups[2] + 1];
      } else if s.idade < 55 {
        groups := groups[3 := groups[3] + 1];
      } else if s.idade < 65 {
        groups := groups[4 := groups[4] + 1];
      } else {
        groups := groups[5 := groups[5] + 1];
      }
      i := i + 1;
    }
    assert surveys[..i] == surveys;
  }

  /** Every survey lands in exactly one of the six bands. */
  lemma AgeGroupsPartition(surveys: seq<Survey>)
    ensures Sum(Histogram(AgeLabels(surveys), AGE_LABELS)) == |surveys|
  {
    AgeLabelsDistinct();
    HistogramPartition(AgeLabels(surveys), AGE_LABELS);
  }

  // ---------------------------------------------------------------------
  // Satisfaction: `satisfactionLevels[s.satisfacao_servicos]++`, unguarded

  /** The keys this page starts with; note the lower-case "insatisfeito" and
      "satisfeito", unlike the dashboard's. */
  const SATISFACTION_LABELS: seq<string> :=
    ["Muito insatisfeito", "Insatisfeito", "Neutro", "Satisfeito", "Muito satisfeito"]

  /** A plain object of counters: its keys in insertion order and the value
      under each key. */
  datatype Counters = Counters(keys: seq<string>, values: seq<Num>)

  predicate WellFormed(c: Counters) {
    |c.keys| == |c.values| && Distinct(c.keys)
  }

  const INITIAL_COUNTERS := Counters(SATISFACTION_LABELS, [Int(0), Int(0), Int(0), Int(0), Int(0)])

  /** `v++`: a number goes up by one; `undefined` and NaN become NaN. */
  function Increment(v: Num): (r: Num)
    ensures r.Int? <==> v.Int?
    ensures v.Int? ==> r.value == v.value + 1
    ensures !r.Undefined?
  {
    match v
    case Int(n) => Int(n + 1)
    case _ => NaN
  }

  /** The one key that `obj[x]++` never creates: the object inherits an
      accessor for it, whose setter ignores a number. */
  const PROTO_KEY := "__proto__"

  /** `obj[x]++`: an existing key is incremented in place; a new key is
      appended, holding `undefined + 1` (or an inherited member plus one),
      which is NaN; "__proto__" is left alone. */
  function Bump(c: Counters, x: string): (r: Counters)
    requires WellFormed(c)
    ensures WellFormed(r)
    ensures x in r.keys <==> x in c.keys || x != PROTO_KEY
  {
    match IndexOf(c.keys, x)
    case Some(j) => Counters(c.keys, c.values[j := Increment(c.values[j])])
    case None => if x == PROTO_KEY then c else Counters(c.keys + [x], c.values + [NaN])
  }

  /** The object after `obj[x]++` for every x in order. */
  function BumpAll(c: Counters, xs: seq<string>): (r: Counters)
    requires WellFormed(c)
    ensures WellFormed(r)
  {
    if xs == [] then c else Bump(BumpAll(c, xs[..|xs| - 1]), xs[|xs| - 1])
  }

  /** The `forEach` over the surveys, updating the object in place. */
  method CountSatisfaction(surveys: seq<Survey>) returns (levels: Counters)
    ensures levels == BumpAll(INITIAL_COUNTERS, Answers(surveys))
  {
    var keys := SATISFACTION_LABELS;
    var values := [Int(0), Int(0), Int(0), Int(0), Int(0)];
    var i := 0;
    while i < |surveys|
      invariant 0 <= i <= |surveys|
      invariant Counters(keys, values) == BumpAll(INITIAL_COUNTERS, Answers(surveys[..i]))
    {
      var answer := surveys[i].satisfacaoServicos;
      ghost var seen := Answers(surveys[..i + 1]);
      assert seen[..i] == Answers(surveys[..i]) && seen[i] == answer;
      ghost var before := Counters(keys, values);
      assert BumpAll(INITIAL_COUNTERS, seen) == Bump(before, answer);
      var j := IndexOf(keys, answer);
      if j.Some? {
        values := values[j.value := Increment(values[j.value])];
      } else if answer != PROTO_KEY {
        keys := keys + [answer];
        values := values + [NaN];
      }
      assert Counters(keys, values) == Bump(before, answer);
      i := i + 1;
    }
    assert surveys[..i] == surveys;
    levels := Counters(keys, values);
  }

  /** What the satisfaction object holds after counting `xs`, in creation
      order: the five labels first, each with its number of occurrences;
      after them only answers that are not labels, each holding NaN; and a
      key for every answer but "__proto__". */
  predicate Describes(c: Counters, xs: seq<string>) {
    |c.keys| >= |SATISFACTION_LABELS| &&
    |c.values| == |c.keys| &&
    (forall i :: 0 <= i < |SATISFACTION_LABELS| ==>
      c.keys[i] == SATISFACTION_LABELS[i] && c.values[i] == Int(Count(xs, SATISFACTION_LABELS[i]))) &&
    (forall i :: |SATISFACTION_LABELS| <= i < |c.keys| ==>
      c.values[i] == NaN && c.keys[i] !in SATISFACTION_LABELS && c.keys[i] != PROTO_KEY && c.keys[i] in xs) &&
    (forall x :: x in xs && x != PROTO_KEY ==> x in c.keys)
  }

  /** One more answer keeps the description true. */
  lemma BumpDescribes(c: Counters, xs: seq<string>, y: string)
    requires WellFormed(c) && Describes(c, xs)
    ensures Describes(Bump(c, y), xs + [y])
  {
    var r := Bump(c, y);
    var L := SATISFACTION_LABELS;
    forall i | 0 <= i < |L| ensures r.keys[i] == L[i] && r.values[i] == Int(Count(xs + [y], L[i])) {
      CountSnoc(xs, y, L[i]);
      match IndexOf(c.keys, y)
      case Some(j) =>
        if j != i {
          assert c.keys[i] != c.keys[j];
        }
      case None =>
    }
    forall i | |L| <= i < |r.keys|
      ensures r.values[i] == NaN && r.keys[i] !in L && r.keys[i] != PROTO_KEY && r.keys[i] in xs + [y]
    {
      match IndexOf(c.keys, y)
      case Some(j) =>
        assert i < |c.keys|;
      case None =>
        if i < |c.keys| {
          assert r.keys[i] == c.keys[i];
        } else {
          assert r.keys[i] == y;
        }
    }
    forall x | x in xs + [y] && x != PROTO_KEY ensures x in r.keys {
      if x != y {
        assert x in xs;
      }
    }
  }

  lemma {:induction false} SatisfactionCounters(xs: seq<string>)
    ensures Describes(BumpAll(INITIAL_COUNTERS, xs), xs)
  {
    if xs != [] {
      var prev := xs[..|xs| - 1];
      assert xs == prev + [xs[|xs| - 1]];
      SatisfactionCounters(prev);
      BumpDescribes(BumpAll(INITIAL_COUNTERS, prev), prev, xs[|xs| - 1]);
    }
  }

  /** The object has exactly the five labels precisely when every answer is
      one of the five (or "__proto__"); any other answer adds a key of its
      own whose value is NaN. */
  lemma SatisfactionKeys(surveys: seq<Survey>)
    ensures var c := BumpAll(INITIAL_COUNTERS, Answers(surveys));
      c.keys == SATISFACTION_LABELS <==>
      forall i :: 0 <= i < |surveys| ==>
        surveys[i].satisfacaoServicos in SATISFACTION_LABELS || surveys[i].satisfacaoServicos == PROTO_KEY
  {
    var xs := Answers(surveys);
    var c := BumpAll(INITIAL_COUNTERS, xs);
    SatisfactionCounters(xs);
    if |c.keys| > |SATISFACTION_LABELS| {
      var k := c.keys[|SATISFACTION_LABELS|];
      assert k in xs && k !in SATISFACTION_LABELS;
      var i :| 0 <= i < |xs| && xs[i] == k;
      assert surveys[i].satisfacaoServicos !in SATISFACTION_LABELS;
    } else {
      assert c.keys == SATISFACTION_LABELS;
    }
    forall i | 0 <= i < |surveys| && surveys[i].satisfacaoServicos != PROTO_KEY
      ensures surveys[i].satisfacaoServicos in c.keys
    {
      assert xs[i] in xs;
    }
  }

  /** The object's properties, key and value, in creation order. */
  function Entries(c: Counters): (es: seq<(string, Num)>)
    requires |c.keys| == |c.values|
    ensures |es| == |c.keys|
    ensures forall i :: 0 <= i < |es| ==> es[i] == (c.keys[i], c.values[i])
  {
    seq(|c.keys|, i requires 0 <= i < |c.keys| => (c.keys[i], c.values[i]))
  }

  lemma LabelsAreNotIndices()
    ensures forall k :: 0 <= k < |SATISFACTION_LABELS| ==> !IsArrayIndex(SATISFACTION_LABELS[k])
  {
    forall k | 0 <= k < |SATISFACTION_LABELS| ensures !IsDigit(SATISFACTION_LABELS[k][0]) {
    }
  }

  /** An answer that is an array index, such as "3", puts a bar of its own
      before "Muito insatisfeito". */
  lemma IndexAnswerComesFirst(surveys: seq<Survey>, i: nat)
    requires i < |surveys| && IsArrayIndex(surveys[i].satisfacaoServicos)
    ensures var c := BumpAll(INITIAL_COUNTERS, Answers(surveys));
      var bars := OwnOrder(Entries(c));
      |bars| > 0 && IsArrayIndex(bars[0].0) && bars != Entries(c)
  {
    var xs := Answers(surveys);
    var c := BumpAll(INITIAL_COUNTERS, xs);
    var es := Entries(c);
    SatisfactionCounters(xs);
    LabelsAreNotIndices();
    assert xs[i] in xs && xs[i] != PROTO_KEY;
    var k :| 0 <= k < |c.keys| && c.keys[k] == xs[i];
    IndexComesFirst(es, k);
    assert es[0].0 == SATISFACTION_LABELS[0];
  }

  /** Without such answers the chart keeps the creation order. */
  lemma CreationOrderKept(surveys: seq<Survey>)
    requires forall i :: 0 <= i < |surveys| ==> !IsArrayIndex(surveys[i].satisfacaoServicos)
    ensures var c := BumpAll(INITIAL_COUNTERS, Answers(surveys));
      OwnOrder(Entries(c)) == Entries(c)
  {
    var xs := Answers(surveys);
    var c := BumpAll(INITIAL_COUNTERS, xs);
    var es := Entries(c);
    SatisfactionCounters(xs);
    LabelsAreNotIndices();
    forall k | 0 <= k < |es| ensures !IsArrayIndex(es[k].0) {
      if k >= |SATISFACTION_LABELS| {
        var i :| 0 <= i < |xs| && xs[i] == c.keys[k];
      }
    }
    NoIndexKeepsOrder(es);
  }

  /** The chart lists the object's keys in creation order (labels first)
      precisely when no answer is an array index such as "3"; otherwise its
      first bar is such an answer, before "Muito insatisfeito". */
  lemma SatisfactionChartOrder(surveys: seq<Survey>)
    ensures var c := BumpAll(INITIAL_COUNTERS, Answers(surveys));
      OwnOrder(Entries(c)) == Entries(c) <==>
      forall i :: 0 <= i < |surveys| ==> !IsArrayIndex(surveys[i].satisfacaoServicos)
    ensures var c := BumpAll(INITIAL_COUNTERS, Answers(surveys));
      var bars := OwnOrder(Entries(c));
      (exists i :: 0 <= i < |surveys| && IsArrayIndex(surveys[i].satisfacaoServicos)) ==>
      |bars| > 0 && IsArrayIndex(bars[0].0)
  {
    if i :| 0 <= i < |surveys| && IsArrayIndex(surveys[i].satisfacaoServicos) {
      IndexAnswerComesFirst(surveys, i);
    } else {
      CreationOrderKept(surveys);
    }
  }

  /** When every answer is a known label the chart shows the five labels,
      in order. */
  lemma SatisfactionChartLabels(surveys: seq<Survey>)
    requires forall i :: 0 <= i < |surveys| ==> surveys[i].satisfacaoServicos in SATISFACTION_LABELS
    ensures var c := BumpAll(INITIAL_COUNTERS, Answers(surveys));
      c.keys == SATISFACTION_LABELS && OwnOrder(Entries(c)) == Entries(c)
  {
    SatisfactionKeys(surveys);
    LabelsAreNotIndices();
    CreationOrderKept(surveys);
  }

  /** When every answer is a known label the five counts form a partition. */
  lemma SatisfactionPartition(surveys: seq<Survey>)
    requires forall i :: 0 <= i < |surveys| ==> surveys[i].satisfacaoServicos in SATISFACTION_LABELS
    ensures var c := BumpAll(INITIAL_COUNTERS, Answers(surveys));
      c.values == seq(5, i requires 0 <= i < 5 => Int(Histogram(Answers(surveys), SATISFACTION_LABELS)[i])) &&
      Sum(Histogram(Answers(surveys), SATISFACTION_LABELS)) == |surveys|
  {
    SatisfactionKeys(surveys);
    SatisfactionCounters(Answers(surveys));
    HistogramPartition(Answers(surveys), SATISFACTION_LABELS);
  }

  // ---------------------------------------------------------------------
  // Voting intention

  const VOTE_LABELS: seq<string> := ["Sim", "Não"]

  /** `vai_votar === true` and `vai_votar === false`: strict equality, so a
      textual answer counts for neither. */
  const VOTE_KEYS: seq<VoteAnswer> := [BoolValue(true), BoolValue(false)]

  function Votes(surveys: seq<Survey>): (votes: seq<VoteAnswer>)
    ensures |votes| == |surveys|
    ensures forall i :: 0 <= i < |surveys| ==> votes[i] == surveys[i].vaiVotar
  {
    seq(|surveys|, i requires 0 <= i < |surveys| => surveys[i].vaiVotar)
  }

  /** "Sim" counts the surveys whose answer is exactly `true`, "Não" those
      whose answer is exactly `false`. */
  function VotingIntention(surveys: seq<Survey>): (chart: ChartData)
    ensures chart.labels == VOTE_LABELS
    ensures chart.data == [multiset(Votes(surveys))[BoolValue(true)], multiset(Votes(surveys))[BoolValue(false)]]
  {
    CountIsMultiplicity(Votes(surveys), BoolValue(true));
    CountIsMultiplicity(Votes(surveys), BoolValue(false));
    ChartData(VOTE_LABELS, Histogram(Votes(surveys), VOTE_KEYS))
  }

  /** "Sim" plus "Não" never exceeds the number of surveys, and equals it
      exactly when every answer is a boolean. */
  lemma VotingBound(surveys: seq<Survey>)
    ensures Sum(VotingIntention(surveys).data) <= |surveys|
    ensures Sum(VotingIntention(surveys).data) == |surveys| <==>
      forall i :: 0 <= i < |surveys| ==> surveys[i].vaiVotar.BoolValue?
  {
    assert Distinct(VOTE_KEYS);
    HistogramSumBound(Votes(surveys), VOTE_KEYS);
    HistogramPartition(Votes(surveys), VOTE_KEYS);
    forall v: VoteAnswer ensures v in VOTE_KEYS <==> v.BoolValue? {
      if v.BoolValue? {
        assert v == if v.b then VOTE_KEYS[0] else VOTE_KEYS[1];
      }
    }
  }

  // ---------------------------------------------------------------------
  // The charts

  datatype AnalyticsCharts = AnalyticsCharts(
    ageDistribution: ChartData,
    satisfactionDistribution: seq<(string, Num)>,
    votingIntention: ChartData)

  /** `prepareChartData`: nothing while the surveys have not arrived. */
  method PrepareChartData(surveys: Option<seq<Survey>>) returns (charts: Option<AnalyticsCharts>)
    ensures charts.None? <==> surveys.None?
    ensures charts.Some? ==>
      var c := charts.value;
      var s := surveys.value;
      c.ageDistribution == ChartData(AGE_LABELS, Histogram(AgeLabels(s), AGE_LABELS)) &&
      c.satisfactionDistribution == OwnOrder(Entries(BumpAll(INITIAL_COUNTERS, Answers(s)))) &&
      c.votingIntention == VotingIntention(s)
  {
    if surveys.None? {
      return None;
    }
    var s := surveys.value;
    var ageGroups := CountAgeGroups(s);
    var levels := CountSatisfaction(s);
    charts := Some(AnalyticsCharts(
      ChartData(AGE_LABELS, ageGroups),
      OwnOrder(Entries(levels)),
      VotingIntention(s)));
  }

  // ---------------------------------------------------------------------
  // The age select

  /** The `value`s of the select's options; "" is "Todas as idades". */
  const AGE_OPTIONS: seq<string> := ["", "18-24", "25-34", "35-44", "45-54", "55-100"]

  /** `${n}` in a template literal. */
  function TemplateText(n: Num): (text: string)
    ensures text != ""
    ensures n.Int? && n.value >= 0 ==> '-' !in text
  {
    match n
    case Int(i) => IntToString(i)
    case NaN => "NaN"
    case Undefined => "undefined"
  }

  /** The select's displayed value for the current filter. */
  function AgeOptionValue(ageRange: Option<AgeRange>): (value: string)
    ensures value == "" <==> ageRange.None?
    ensures ageRange.Some? ==> '-' in value
  {
    match ageRange
    case None => ""
    case Some(r) => TemplateText(r.min) + "-" + TemplateText(r.max)
  }

  /** `const [min, max] = value.split("-").map(Number)`: a missing second
      piece leaves `max` undefined. */
  function ParseAgeOption(value: string): (r: AgeRange)
    ensures !r.min.Undefined?
  {
    var parts := Split(value, '-');
    AgeRange(ToNumber(parts[0]), if |parts| >= 2 then ToNumber(parts[1]) else Undefined)
  }

  /** Reading a numeral back through `Number`. */
  lemma NumberOfNumeral(n: nat)
    ensures ToNumber(NatToString(n)) == Int(n)
    ensures '-' !in NatToString(n)
  {
    ParseNatToString(n);
  }

  /** A "min-max" option value parses into that range, and the select then
      shows the same value again. */
  lemma AgeOptionRoundTrip(min: nat, max: nat)
    ensures ParseAgeOption(NatToString(min) + "-" + NatToString(max)) == AgeRange(Int(min), Int(max))
    ensures AgeOptionValue(Some(AgeRange(Int(min), Int(max)))) == NatToString(min) + "-" + NatToString(max)
  {
    NumberOfNumeral(min);
    NumberOfNumeral(max);
    SplitAtSeparator(NatToString(min), NatToString(max), '-');
    SplitWithoutSeparator(NatToString(max), '-');
  }

  /** A "min-max" option stores a range whose two slots are numbers, so the
      query accepts it. */
  lemma RangeOptionAccepted(f: SurveyFilters, value: string, min: nat, max: nat)
    requires value == NatToString(min) + "-" + NatToString(max)
    ensures !Api.ThrowsTypeError(With(f, AgeRangeEntry(Some(ParseAgeOption(value)))))
  {
    AgeOptionRoundTrip(min, max);
  }

  /** Each of the five range options stores a range the query accepts. */
  lemma RangeOptionsAccepted(f: SurveyFilters, value: string)
    requires value in AGE_OPTIONS[1..]
    ensures !Api.ThrowsTypeError(With(f, AgeRangeEntry(Some(ParseAgeOption(value)))))
  {
    if value == "18-24" {
      RangeOptionAccepted(f, value, 18, 24);
    } else if value == "25-34" {
      RangeOptionAccepted(f, value, 25, 34);
    } else if value == "35-44" {
      RangeOptionAccepted(f, value, 35, 44);
    } else if value == "45-54" {
      RangeOptionAccepted(f, value, 45, 54);
    } else {
      assert NatToString(100) == NatToString(10) + "0";
      RangeOptionAccepted(f, value, 55, 100);
    }
  }

  /** "Todas as idades" does not clear the age filter: it stores [0,
      undefined], and building the query for that filter throws. Every other
      option stores a range the query accepts. */
  lemma AgeOptionsQuery(f: SurveyFilters, value: string)
    requires value in AGE_OPTIONS
    ensures value == "" ==> ParseAgeOption(value) == AgeRange(Int(0), Undefined)
    ensures Api.ThrowsTypeError(With(f, AgeRangeEntry(Some(ParseAgeOption(value))))) <==> value == ""
  {
    if value != "" {
      RangeOptionsAccepted(f, value);
    }
  }

  // ---------------------------------------------------------------------
  // Page state

  class AnalyticsPage {
    var filters: SurveyFilters
    var filtersOpen: bool

    constructor()
      ensures filters == NO_FILTERS && !filtersOpen
    {
      filters := NO_FILTERS;
      filtersOpen := false;
    }

    /** The "Filtros" button. */
    method ToggleFilters()
      modifies this
      ensures filtersOpen == !old(filtersOpen) && filters == old(filters)
    {
      filtersOpen := !filtersOpen;
    }

    /** The start-date input; clearing it stores "" rather than removing the key. */
    method SetStartDate(value: string)
      modifies this
      ensures filters == With(old(filters), StartDate(Some(value)))
      ensures filtersOpen == old(filtersOpen)
    {
      filters := With(filters, StartDate(Some(value)));
    }

    method SetEndDate(value: string)
      modifies this
      ensures filters == With(old(filters), EndDate(Some(value)))
      ensures filtersOpen == old(filtersOpen)
    {
      filters := With(filters, EndDate(Some(value)));
    }

    method SelectAgeOption(value: string)
      modifies this
      ensures filters == With(old(filters), AgeRangeEntry(Some(ParseAgeOption(value))))
      ensures filtersOpen == old(filtersOpen)
    {
      filters := With(filters, AgeRangeEntry(Some(ParseAgeOption(value))));
    }

    /** "Limpar Filtros": back to `{}`; the panel stays open. */
    method ClearFilters()
      modifies this
      ensures filters == NO_FILTERS && filtersOpen == old(filtersOpen)
    {
      filters := NO_FILTERS;
    }

    /** "Aplicar Filtros" only closes the panel: the query already follows
        every change of the filters. */
    method ApplyFilters()
      modifies this
      ensures !filtersOpen && filters == old(filters)
    {
      filtersOpen := false;
    }
  }
}
