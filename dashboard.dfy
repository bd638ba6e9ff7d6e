/** The aggregation logic of src/pages/Dashboard.tsx: the three charts built
    by `calculateChartData` (surveys per day over the last seven days, five
    age bands, five satisfaction levels), the list of active researchers and
    the status badge shown next to each of them.

    Calendar formatting is abstracted: `dayLabel(i)` is the `dd/MM` label of
    the day i days before today and `dayKey(t)` the label of timestamp t. */
module Dashboard {
  import opened Wrappers
  import opened Types
  import opened Tally
  import opened Strings
  import StatusBadge

  // ---------------------------------------------------------------------
  // Surveys by date

  function Reverse<T>(s: seq<T>): (r: seq<T>)
    ensures |r| == |s|
    ensures forall i :: 0 <= i < |s| ==> r[i] == s[|s| - 1 - i]
  {
    if s == [] then [] else Reverse(s[1..]) + [s[0]]
  }

  /** `last7Days`: today and the six days before it, built newest first and
      then reversed, so that the series runs oldest first and ends today. */
  function LastSevenDays(dayLabel: nat -> string): (days: seq<string>)
    ensures |days| == 7
    ensures forall i :: 0 <= i < 7 ==> days[i] == dayLabel(6 - i)
    ensures days[6] == dayLabel(0)
  {
    Reverse(seq(7, i requires 0 <= i => dayLabel(i)))
  }

  function DayKeys(surveys: seq<Survey>, dayKey: int -> string): seq<string> {
    seq(|surveys|, i requires 0 <= i < |surveys| => dayKey(surveys[i].dataHora))
  }

  /** `surveysByDate`: entry i counts the surveys whose day label equals label i. */
  function SurveysByDate(surveys: seq<Survey>, days: seq<string>, dayKey: int -> string): (series: seq<nat>)
    ensures |series| == |days|
    ensures forall i :: 0 <= i < |days| ==> series[i] == multiset(DayKeys(surveys, dayKey))[days[i]]
  {
    forall i | 0 <= i < |days| ensures Count(DayKeys(surveys, dayKey), days[i]) == multiset(DayKeys(surveys, dayKey))[days[i]] {
      CountIsMultiplicity(DayKeys(surveys, dayKey), days[i]);
    }
    Histogram(DayKeys(surveys, dayKey), days)
  }

  /** Seven different day labels never count a survey twice, so the series
      adds up to at most the number of surveys. */
  lemma SurveysByDateBound(surveys: seq<Survey>, dayLabel: nat -> string, dayKey: int -> string)
    requires forall i: nat, j: nat :: i < j < 7 ==> dayLabel(i) != dayLabel(j)
    ensures |SurveysByDate(surveys, LastSevenDays(dayLabel), dayKey)| == 7
    ensures Sum(SurveysByDate(surveys, LastSevenDays(dayLabel), dayKey)) <= |surveys|
  {
    var days := LastSevenDays(dayLabel);
    assert Distinct(days) by {
      forall i, j | 0 <= i < j < |days| ensures days[i] != days[j] {
        assert days[i] == dayLabel(6 - i) && days[j] == dayLabel(6 - j);
      }
    }
    HistogramSumBound(DayKeys(surveys, dayKey), days);
  }

  // ---------------------------------------------------------------------
  // Age bands

  const AGE_LABELS: seq<string> := ["18-24", "25-34", "35-44", "45-54", "55+"]

  /** The cut points of the if/else chain: band k starts at AGE_CUTS[k - 1]. */
  const AGE_CUTS: seq<int> := [25, 35, 45, 55]

  /** The band the if/else chain picks: the number of cut points at or
      below the age. Ages under 18 fall in the first band, every age from
      55 up in the last. */
  function AgeBand(idade: int): (b: nat)
    ensures b < |AGE_LABELS|
    ensures forall k :: 0 <= k < |AGE_CUTS| ==> (k < b <==> AGE_CUTS[k] <= idade)
  {
    if idade < 25 then 0
    else if idade < 35 then 1
    else if idade < 45 then 2
    else if idade < 55 then 3
    else 4
  }

  function AgeLabels(surveys: seq<Survey>): (labels: seq<string>)
    ensures |labels| == |surveys|
    ensures forall i :: 0 <= i < |surveys| ==> labels[i] in AGE_LABELS
  {
    seq(|surveys|, i requires 0 <= i < |surveys| => AGE_LABELS[AgeBand(surveys[i].idade)])
  }

  lemma AgeLabelsDistinct()
    ensures Distinct(AGE_LABELS)
  {
  }

  /** The `forEach` over the surveys that increments one field of the
      `ageGroups` object per survey. */
  method CountAgeGroups(surveys: seq<Survey>) returns (groups: seq<nat>)
    ensures groups == Histogram(AgeLabels(surveys), AGE_LABELS)
  {
    AgeLabelsDistinct();
    groups := [0, 0, 0, 0, 0];
    var i := 0;
    while i < |surveys|
      invariant 0 <= i <= |surveys|
      invariant groups == Histogram(AgeLabels(surveys[..i]), AGE_LABELS)
    {
      var s := surveys[i];
      assert AgeLabels(surveys[..i + 1]) == AgeLabels(surveys[..i]) + [AGE_LABELS[AgeBand(s.idade)]];
      HistogramHit(AgeLabels(surveys[..i]), AGE_LABELS, AgeBand(s.idade));
      if s.idade < 25 {
        groups := groups[0 := groups[0] + 1];
      } else if s.idade < 35 {
        groups := groups[1 := groups[1] + 1];
      } else if s.idade < 45 {
        groups := groups[2 := groups[2] + 1];
      } else if s.idade < 55 {
        groups := groups[3 := groups[3] + 1];
      } else {
        groups := groups[4 := groups[4] + 1];
      }
      i := i + 1;
    }
    assert surveys[..i] == surveys;
  }

  /** Every survey lands in exactly one band: the five counts add up to the
      number of surveys. */
  lemma AgeGroupsPartition(surveys: seq<Survey>)
    ensures Sum(Histogram(AgeLabels(surveys), AGE_LABELS)) == |surveys|
  {
    AgeLabelsDistinct();
    HistogramPartition(AgeLabels(surveys), AGE_LABELS);
  }

  // ---------------------------------------------------------------------
  // Satisfaction levels

  const SATISFACTION_LABELS: seq<string> :=
    ["Muito Insatisfeito", "Insatisfeito", "Neutro", "Satisfeito", "Muito Satisfeito"]

  lemma SatisfactionLabelsDistinct()
    ensures Distinct(SATISFACTION_LABELS)
  {
  }

  /** The `forEach` that increments the `satisfactionLevels` field named by
      the survey's answer, when the answer is non-empty and is one of the
      object's keys. */
  method CountSatisfaction(surveys: seq<Survey>) returns (levels: seq<nat>)
    ensures levels == Histogram(Answers(surveys), SATISFACTION_LABELS)
  {
    SatisfactionLabelsDistinct();
    levels := [0, 0, 0, 0, 0];
    var i := 0;
    while i < |surveys|
      invariant 0 <= i <= |surveys|
      invariant levels == Histogram(Answers(surveys[..i]), SATISFACTION_LABELS)
    {
      var answer := surveys[i].satisfacaoServicos;
      assert Answers(surveys[..i + 1]) == Answers(surveys[..i]) + [answer];
      if answer != "" {
        var j := IndexOf(SATISFACTION_LABELS, answer);
        if j.Some? {
          HistogramHit(Answers(surveys[..i]), SATISFACTION_LABELS, j.value);
          levels := levels[j.value := levels[j.value] + 1];
        } else {
          HistogramMiss(Answers(surveys[..i]), answer, SATISFACTION_LABELS);
        }
      } else {
        HistogramMiss(Answers(surveys[..i]), answer, SATISFACTION_LABELS);
      }
      i := i + 1;
    }
    assert surveys[..i] == surveys;
  }

  /** Empty or unknown answers are skipped, so the five counts add up to at
      most the number of surveys, and to exactly that number only when every
      answer is one of the five labels. */
  lemma SatisfactionBound(surveys: seq<Survey>)
    ensures Sum(Histogram(Answers(surveys), SATISFACTION_LABELS)) <= |surveys|
    ensures Sum(Histogram(Answers(surveys), SATISFACTION_LABELS)) == |surveys| <==>
      forall i :: 0 <= i < |surveys| ==> surveys[i].satisfacaoServicos in SATISFACTION_LABELS
  {
    SatisfactionLabelsDistinct();
    HistogramSumBound(Answers(surveys), SATISFACTION_LABELS);
    HistogramPartition(Answers(surveys), SATISFACTION_LABELS);
  }

  // ---------------------------------------------------------------------
  // The charts

  datatype DashboardCharts = DashboardCharts(
    surveysByDate: ChartData,
    demographics: ChartData,
    satisfaction: ChartData)

  /** `calculateChartData`: nothing while the surveys have not arrived;
      otherwise three charts whose labels are the bucket keys in insertion
      order and whose data are the matching counters, position by position. */
  method CalculateChartData(surveys: Option<seq<Survey>>, dayLabel: nat -> string, dayKey: int -> string)
    returns (charts: Option<DashboardCharts>)
    ensures charts.None? <==> surveys.None?
    ensures charts.Some? ==>
      var c := charts.value;
      var s := surveys.value;
      c.surveysByDate == ChartData(LastSevenDays(dayLabel), SurveysByDate(s, LastSevenDays(dayLabel), dayKey)) &&
      c.demographics == ChartData(AGE_LABELS, Histogram(AgeLabels(s), AGE_LABELS)) &&
      c.satisfaction == ChartData(SATISFACTION_LABELS, Histogram(Answers(s), SATISFACTION_LABELS))
  {
    if surveys.None? {
      return None;
    }
    var s := surveys.value;
    var days := LastSevenDays(dayLabel);
    var byDate := SurveysByDate(s, days, dayKey);
    var ageGroups := CountAgeGroups(s);
    var levels := CountSatisfaction(s);
    charts := Some(DashboardCharts(
      ChartData(days, byDate),
      ChartData(AGE_LABELS, ageGroups),
      ChartData(SATISFACTION_LABELS, levels)));
  }

  // ---------------------------------------------------------------------
  // Active researchers

  const DAY_MS := 24 * 60 * 60 * 1000
  const MAX_ACTIVE := 5

  /** `filter`: the researchers seen strictly after `now` minus 24 hours,
      each as many times as in the input. */
  function SeenToday(rs: seq<Researcher>, now: int): (recent: seq<Researcher>)
    ensures forall r :: r in recent ==> r.ultimoAcesso > now - DAY_MS
    ensures forall r :: r in rs && r.ultimoAcesso > now - DAY_MS ==> r in recent
    ensures multiset(recent) <= multiset(rs)
    ensures forall r :: multiset(recent)[r] == if r.ultimoAcesso > now - DAY_MS then multiset(rs)[r] else 0
  {
    if rs == [] then []
    else
      assert rs == [rs[0]] + rs[1..];
      (if rs[0].ultimoAcesso > now - DAY_MS then [rs[0]] else []) + SeenToday(rs[1..], now)
  }

  predicate MostRecentFirst(rs: seq<Researcher>) {
    forall i, j :: 0 <= i < j < |rs| ==> rs[i].ultimoAcesso >= rs[j].ultimoAcesso
  }

  /** Everything after the head of a most-recent-first list was seen no
      later than the head, so the head may precede any reordering of it,
      with one less recent researcher added. */
  lemma HeadFirst(h: Researcher, r: Researcher, tail: seq<Researcher>, rest: seq<Researcher>)
    requires forall x :: x in tail ==> x.ultimoAcesso <= h.ultimoAcesso
    requires r.ultimoAcesso < h.ultimoAcesso
    requires multiset(rest) == multiset(tail) + multiset{r}
    requires MostRecentFirst(rest)
    ensures MostRecentFirst([h] + rest)
    ensures multiset([h] + rest) == multiset([h] + tail) + multiset{r}
  {
    var result := [h] + rest;
    forall j | 0 <= j < |rest| ensures rest[j].ultimoAcesso <= h.ultimoAcesso {
      assert rest[j] in multiset(rest);
    }
    forall i, j | 0 <= i < j < |result| ensures result[i].ultimoAcesso >= result[j].ultimoAcesso {
      if i > 0 {
        assert result[i] == rest[i - 1] && result[j] == rest[j - 1];
      } else {
        assert result[j] == rest[j - 1];
      }
    }
  }

  /** The tail of a most-recent-first list is one too, and its head was seen
      no earlier than anything in the tail. */
  lemma TailOfSorted(sorted: seq<Researcher>)
    requires sorted != [] && MostRecentFirst(sorted)
    ensures sorted == [sorted[0]] + sorted[1..]
    ensures MostRecentFirst(sorted[1..])
    ensures forall x :: x in sorted[1..] ==> x.ultimoAcesso <= sorted[0].ultimoAcesso
  {
    var tail := sorted[1..];
    forall i, j | 0 <= i < j < |tail| ensures tail[i].ultimoAcesso >= tail[j].ultimoAcesso {
      assert tail[i] == sorted[i + 1] && tail[j] == sorted[j + 1];
    }
  }

  /** Places `r` before the first researcher not seen more recently than it. */
  function InsertByAccess(r: Researcher, sorted: seq<Researcher>): (result: seq<Researcher>)
    requires MostRecentFirst(sorted)
    ensures multiset(result) == multiset(sorted) + multiset{r}
    ensures MostRecentFirst(result)
  {
    if sorted == [] || sorted[0].ultimoAcesso <= r.ultimoAcesso then [r] + sorted
    else
      TailOfSorted(sorted);
      var rest := InsertByAccess(r, sorted[1..]);
      HeadFirst(sorted[0], r, sorted[1..], rest);
      [sorted[0]] + rest
  }

  /** `sort` by the comparator `b - a` on last access: most recent first;
      a stable sort keeps equally recent researchers in input order. */
  function SortByAccess(rs: seq<Researcher>): (sorted: seq<Researcher>)
    ensures multiset(sorted) == multiset(rs)
    ensures MostRecentFirst(sorted)
  {
    if rs == [] then []
    else
      assert rs == [rs[0]] + rs[1..];
      InsertByAccess(rs[0], SortByAccess(rs[1..]))
  }

  /** A prefix keeps the order and takes nothing the list did not have. */
  lemma PrefixOf(s: seq<Researcher>, n: nat)
    requires n <= |s|
    ensures multiset(s[..n]) <= multiset(s)
    ensures MostRecentFirst(s) ==> MostRecentFirst(s[..n])
    ensures forall x :: x in s[..n] ==> x in s
  {
    assert s == s[..n] + s[n..];
  }

  /** `activeResearchers`: seen in the last 24 hours, most recent first, at
      most five; undefined while the researchers have not arrived. */
  function ActiveResearchers(researchers: Option<seq<Researcher>>, now: int): (active: Option<seq<Researcher>>)
    ensures active.None? <==> researchers.None?
    ensures active.Some? ==>
      |active.value| <= MAX_ACTIVE &&
      (forall r :: r in active.value ==> r.ultimoAcesso > now - DAY_MS) &&
      MostRecentFirst(active.value) &&
      multiset(active.value) <= multiset(researchers.value)
  {
    match researchers
    case None => None
    case Some(rs) =>
      var recent := SeenToday(rs, now);
      var sorted := SortByAccess(recent);
      var n := if |sorted| < MAX_ACTIVE then |sorted| else MAX_ACTIVE;
      PrefixOf(sorted, n);
      assert forall x :: x in sorted ==> x in multiset(recent);
      Some(sorted[..n])
  }

  /** In a list most recent first, an element outside the first `n` comes
      after all of them: then the first `n` are not the whole list, and each
      of them was seen at least as recently. */
  lemma OutsidePrefix(sorted: seq<Researcher>, n: nat, r: Researcher)
    requires MostRecentFirst(sorted) && n <= |sorted|
    requires r in sorted && r !in sorted[..n]
    ensures n < |sorted|
    ensures forall q :: q in sorted[..n] ==> q.ultimoAcesso >= r.ultimoAcesso
  {
    var i :| 0 <= i < |sorted| && sorted[i] == r;
    assert forall j :: 0 <= j < n ==> sorted[..n][j] == sorted[j] && sorted[j] != r;
    assert i >= n;
    forall q | q in sorted[..n] ensures q.ultimoAcesso >= r.ultimoAcesso {
      var j :| 0 <= j < n && sorted[..n][j] == q;
    }
  }

  /** Nobody seen in the last 24 hours is left out in favour of someone seen
      less recently: a researcher who is recent but not listed comes after a
      full list of five, each seen at least as recently. */
  lemma ActiveAreMostRecent(rs: seq<Researcher>, now: int, r: Researcher)
    requires r in rs && r.ultimoAcesso > now - DAY_MS
    requires r !in ActiveResearchers(Some(rs), now).value
    ensures |ActiveResearchers(Some(rs), now).value| == MAX_ACTIVE
    ensures forall q :: q in ActiveResearchers(Some(rs), now).value ==> q.ultimoAcesso >= r.ultimoAcesso
  {
    var sorted := SortByAccess(SeenToday(rs, now));
    var n := if |sorted| < MAX_ACTIVE then |sorted| else MAX_ACTIVE;
    assert ActiveResearchers(Some(rs), now).value == sorted[..n];
    assert r in multiset(SeenToday(rs, now));
    assert r in multiset(sorted);
    OutsidePrefix(sorted, n, r);
  }

  // ---------------------------------------------------------------------
  // Researcher rows

  /** `researcher.usuario?.nome || \`Pesquisador ${researcher.id}\``. */
  const RESEARCHER_PREFIX := "Pesquisador "

  predicate HasUserName(r: Researcher) {
    r.usuario.Some? && r.usuario.value.nome != ""
  }

  function DisplayName(r: Researcher): (name: string)
    ensures name != ""
    ensures HasUserName(r) ==> name == r.usuario.value.nome
  {
    if HasUserName(r) then r.usuario.value.nome else RESEARCHER_PREFIX + IntToString(r.id)
  }

  /** A researcher without a user name is shown as "Pesquisador " followed
      by a numeral that reads back as the researcher's id. */
  lemma DisplayNameFallback(r: Researcher)
    requires !HasUserName(r)
    ensures |DisplayName(r)| > |RESEARCHER_PREFIX|
    ensures DisplayName(r)[..|RESEARCHER_PREFIX|] == RESEARCHER_PREFIX
    ensures ParseInt(DisplayName(r)[|RESEARCHER_PREFIX|..]) == Some(r.id)
  {
    ParseIntToString(r.id);
    assert DisplayName(r)[|RESEARCHER_PREFIX|..] == IntToString(r.id);
  }

  const ONLINE_WINDOW_MS := 30 * 60 * 1000
  const PULSE_WINDOW_MS := 15 * 60 * 1000

  /** The badge beside a researcher: online when last seen less than 30
      minutes ago, offline otherwise, pulsing when last seen less than 15
      minutes ago, so a pulsing badge is always an online one. */
  function ResearcherBadge(r: Researcher, now: int): (p: StatusBadge.Props)
    ensures p.labelProp.None?
    ensures p.status == StatusBadge.Online || p.status == StatusBadge.Offline
    ensures p.status == StatusBadge.Online <==> now - r.ultimoAcesso < ONLINE_WINDOW_MS
    ensures p.pulsing == Some(now - r.ultimoAcesso < PULSE_WINDOW_MS)
    ensures p.pulsing == Some(true) ==> p.status == StatusBadge.Online
  {
    StatusBadge.Props(
      if r.ultimoAcesso > now - ONLINE_WINDOW_MS then StatusBadge.Online else StatusBadge.Offline,
      None,
      Some(r.ultimoAcesso > now - PULSE_WINDOW_MS))
  }
}
