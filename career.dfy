/** `_calculate_career_aggregates` and `_calculate_competition_breakdown`: totals
    over a player's match analyses, for the whole career and per competition. */
module Career {
  import opened Wrappers
  import opened Sequences
  import opened Grouping
  import opened Events

  /** One match analysis as the accumulators read it: the competition it belongs to
      (`match_analysis.get('competition_id')`), its `basic_stats` and `advanced_stats`
      dictionaries (numeric keys; a missing dictionary is empty) and the three keys
      read from its `summary_insights`. */
  datatype MatchAnalysis = MatchAnalysis(
    competitionId: Option<int>,
    basic: map<string, real>,
    advanced: map<string, real>,
    performanceScore: Option<real>,
    playingStyle: Option<string>,
    performanceTrend: Option<string>)

  /** The summed quantities: `total_<metric>` in the career aggregates. */
  datatype Metric =
    | MinutesPlayed | Passes | SuccessfulPasses | Shots | Goals | Assists | KeyPasses
    | Dribbles | SuccessfulDribbles | Pressures | DefensiveActions | FoulsCommitted
    | FoulsWon | AerialDuels | AerialDuelsWon | Crosses | SuccessfulCrosses
    | ProgressiveActions | DistanceGained | CarryDistance | CarryTime | SetPieceActions
    | ActionsUnderPressure

  const AllMetrics: set<Metric> := {
    MinutesPlayed, Passes, SuccessfulPasses, Shots, Goals, Assists, KeyPasses,
    Dribbles, SuccessfulDribbles, Pressures, DefensiveActions, FoulsCommitted,
    FoulsWon, AerialDuels, AerialDuelsWon, Crosses, SuccessfulCrosses,
    ProgressiveActions, DistanceGained, CarryDistance, CarryTime, SetPieceActions,
    ActionsUnderPressure}

  /** The metrics the career aggregates average per match. */
  const AveragedMetrics: set<Metric> := {
    MinutesPlayed, Passes, Shots, Assists, KeyPasses, Dribbles, Pressures,
    DefensiveActions, ProgressiveActions}

  /** The metrics each competition of the breakdown sums (the minutes are its `total_minutes`). */
  const BreakdownMetrics: set<Metric> := {
    MinutesPlayed, Passes, SuccessfulPasses, Shots, Goals, Assists, KeyPasses,
    Dribbles, SuccessfulDribbles, Pressures, DefensiveActions}

  /** The metrics each competition of the breakdown averages per match. */
  const BreakdownAveraged: set<Metric> := {
    MinutesPlayed, Passes, Shots, Assists, KeyPasses, Dribbles, Pressures, DefensiveActions}

  /** `d.get(key, 0)` */
  function Lookup(d: map<string, real>, key: string): real {
    if key in d then d[key] else 0.0
  }

  /** The dictionary key a metric is read from; goals are the shots on target. */
  function KeyOf(m: Metric): string {
    match m
    case MinutesPlayed => "total_playing_time_seconds"
    case Passes => "total_passes"
    case SuccessfulPasses => "successful_passes"
    case Shots => "total_shots"
    case Goals => "shots_on_target"
    case Assists => "assists"
    case KeyPasses => "key_passes"
    case Dribbles => "total_dribbles"
    case SuccessfulDribbles => "successful_dribbles"
    case Pressures => "total_pressures"
    case DefensiveActions => "defensive_actions"
    case FoulsCommitted => "fouls_committed"
    case FoulsWon => "fouls_won"
    case AerialDuels => "aerial_duels_total"
    case AerialDuelsWon => "aerial_duels_won"
    case Crosses => "total_crosses"
    case SuccessfulCrosses => "successful_crosses"
    case ProgressiveActions => "progressive_actions"
    case DistanceGained => "total_distance_gained"
    case CarryDistance => "total_carry_distance"
    case CarryTime => "total_carry_time_seconds"
    case SetPieceActions => "set_piece_actions"
    case ActionsUnderPressure => "actions_under_pressure"
  }

  /** Whether a metric is read from `basic_stats` (otherwise from `advanced_stats`). */
  predicate FromBasicStats(m: Metric) {
    m in {MinutesPlayed, Passes, SuccessfulPasses, Shots, Goals, Pressures, CarryDistance, CarryTime}
  }

  /** What one analysis adds to a metric: the value of its key, 0 when absent; the
      playing time is read in seconds and added in minutes. */
  function Contribution(a: MatchAnalysis, m: Metric): real {
    var value := Lookup(if FromBasicStats(m) then a.basic else a.advanced, KeyOf(m));
    if m == MinutesPlayed then value / 60.0 else value
  }

  function ContributionTo(m: Metric): MatchAnalysis -> real {
    (a: MatchAnalysis) => Contribution(a, m)
  }

  /** The totals of the metrics `ms` over the analyses `s`: for each metric, the sum
      of what every analysis contributes to it. */
  function Accumulated(s: seq<MatchAnalysis>, ms: set<Metric>): map<Metric, real> {
    map m | m in ms :: SumBy(s, ContributionTo(m))
  }

  /** All metrics at 0: the dictionary before the loop. */
  function Zeros(ms: set<Metric>): map<Metric, real> {
    map m | m in ms :: 0.0
  }

  /** Before the loop every total is the (empty) sum over no analyses. */
  lemma ZerosAreEmptySums(ms: set<Metric>)
    ensures Zeros(ms) == Accumulated([], ms)
  {
  }

  /** One loop step: `+=` on every summed key. */
  function AddMatch(totals: map<Metric, real>, a: MatchAnalysis): (r: map<Metric, real>)
    ensures r.Keys == totals.Keys
  {
    map m | m in totals :: totals[m] + Contribution(a, m)
  }

  /** Adding one analysis to the totals of `s` gives the totals of `s + [a]`. */
  lemma AccumulatedSnoc(s: seq<MatchAnalysis>, a: MatchAnalysis, ms: set<Metric>)
    ensures Accumulated(s + [a], ms) == AddMatch(Accumulated(s, ms), a)
  {
    var after, step := Accumulated(s + [a], ms), AddMatch(Accumulated(s, ms), a);
    forall m | m in ms ensures after[m] == step[m] {
      SumBySnoc(s, a, ContributionTo(m));
    }
    assert after.Keys == step.Keys;
  }

  predicate HasScore(a: MatchAnalysis) { a.performanceScore.Some? }

  /** The performance scores present, in input order. */
  function Scores(s: seq<MatchAnalysis>): (r: seq<real>)
    ensures |r| == Count(s, HasScore)
  {
    if |s| == 0 then []
    else
      var s', a := s[..|s| - 1], s[|s| - 1];
      assert s == s' + [a];
      FilterSnoc(s', a, HasScore);
      Scores(s') + (if a.performanceScore.Some? then [a.performanceScore.value] else [])
  }

  /** The playing styles present, in input order. */
  function Styles(s: seq<MatchAnalysis>): seq<string> {
    if |s| == 0 then []
    else
      var a := s[|s| - 1];
      Styles(s[..|s| - 1]) + (if a.playingStyle.Some? then [a.playingStyle.value] else [])
  }

  /** The performance trends present, in input order. */
  function Trends(s: seq<MatchAnalysis>): seq<string> {
    if |s| == 0 then []
    else
      var a := s[|s| - 1];
      Trends(s[..|s| - 1]) + (if a.performanceTrend.Some? then [a.performanceTrend.value] else [])
  }

  /** `sum(xs) / len(xs)`, bounded by the smallest and largest element. */
  function Mean(xs: seq<real>): (r: real)
    requires |xs| > 0
    ensures Min(xs) <= r <= Max(xs)
  {
    SumAtLeast(xs, Min(xs));
    SumAtMost(xs, Max(xs));
    QuotientBetween(Sum(xs), |xs| as real, Min(xs), Max(xs));
    Sum(xs) / |xs| as real
  }

  lemma QuotientBetween(total: real, n: real, lo: real, hi: real)
    requires n > 0.0 && n * lo <= total <= n * hi
    ensures lo <= total / n <= hi
  {
    assert lo * n == n * lo && hi * n == n * hi;
    DivisionThreshold(total, n, lo);
    DivisionThreshold(total, n, hi);
  }

  lemma {:induction false} SumAtLeast(xs: seq<real>, lo: real)
    requires forall i :: 0 <= i < |xs| ==> lo <= xs[i]
    ensures Sum(xs) >= |xs| as real * lo
    decreases |xs|
  {
    if |xs| > 0 {
      var xs' := xs[..|xs| - 1];
      assert forall i :: 0 <= i < |xs'| ==> xs'[i] == xs[i];
      SumAtLeast(xs', lo);
      assert |xs| as real * lo == |xs'| as real * lo + lo;
    }
  }

  lemma {:induction false} SumAtMost(xs: seq<real>, hi: real)
    requires forall i :: 0 <= i < |xs| ==> xs[i] <= hi
    ensures Sum(xs) <= |xs| as real * hi
    decreases |xs|
  {
    if |xs| > 0 {
      var xs' := xs[..|xs| - 1];
      assert forall i :: 0 <= i < |xs'| ==> xs'[i] == xs[i];
      SumAtMost(xs', hi);
      assert |xs| as real * hi == |xs'| as real * hi + hi;
    }
  }

  // ---------------------------------------------------------------------------
  // Career aggregates

  /** The most frequent style; among equally frequent styles, the one that appears first
      (what `Counter.most_common(1)` gives). */
  function MostCommon(styles: seq<string>): (r: string)
    requires |styles| > 0
    ensures r in styles
    ensures forall x :: x in styles ==> multiset(styles)[x] <= multiset(styles)[r]
    ensures forall i :: 0 <= i < |Distinct(styles)| && Distinct(styles)[i] != r ==>
      multiset(styles)[Distinct(styles)[i]] < multiset(styles)[r] || FirstIndex(styles, r) < FirstIndex(styles, Distinct(styles)[i])
  {
    var ks := Distinct(styles);
    assert styles[0] in ks;
    var i := BestIndex(styles, ks);
    forall x | x in styles ensures multiset(styles)[x] <= multiset(styles)[ks[i]] {
      var j :| 0 <= j < |ks| && ks[j] == x;
    }
    forall j | 0 <= j < |ks| && ks[j] != ks[i]
      ensures multiset(styles)[ks[j]] < multiset(styles)[ks[i]] || FirstIndex(styles, ks[i]) < FirstIndex(styles, ks[j])
    {
      if j < i {
        DistinctInFirstAppearanceOrder(styles, j, i);
      } else {
        DistinctInFirstAppearanceOrder(styles, i, j);
      }
    }
    ks[i]
  }

  /** The position of the first key of `ks` whose multiplicity in `s` is largest. */
  function BestIndex(s: seq<string>, ks: seq<string>): (i: nat)
    requires |ks| > 0
    ensures i < |ks|
    ensures forall j :: 0 <= j < |ks| ==> multiset(s)[ks[j]] <= multiset(s)[ks[i]]
    ensures forall j :: 0 <= j < i ==> multiset(s)[ks[j]] < multiset(s)[ks[i]]
  {
    if |ks| == 1 then 0
    else
      var b := BestIndex(s, ks[..|ks| - 1]);
      if multiset(s)[ks[|ks| - 1]] > multiset(s)[ks[b]] then |ks| - 1 else b
  }

  /** The career dictionary (for a non-empty input). */
  datatype CareerAggregates = CareerAggregates(
    totalMatches: nat,
    totals: map<Metric, real>,
    performanceScores: seq<real>,
    playingStyles: seq<string>,
    performanceTrends: seq<string>,
    averages: map<Metric, real>,
    careerPassAccuracy: Option<real>,
    careerDribbleSuccessRate: Option<real>,
    careerCrossAccuracy: Option<real>,
    careerAerialDuelSuccessRate: Option<real>,
    mostCommonPlayingStyle: Option<string>,
    avgPerformanceScore: Option<real>)

  /** `x / y` where the code guards it with `if y > 0`. */
  function RateIfPositive(x: real, y: real): (r: Option<real>)
    ensures r.Some? <==> y > 0.0
  {
    if y > 0.0 then Some(x / y) else None
  }

  /** The averages, rates, most common style and mean score computed after the loop. */
  function FinishCareer(matches: nat, totals: map<Metric, real>, scores: seq<real>, styles: seq<string>, trends: seq<string>): (r: CareerAggregates)
    requires matches > 0 && totals.Keys == AllMetrics
    ensures r.totalMatches == matches && r.totals == totals
    ensures r.performanceScores == scores && r.playingStyles == styles && r.performanceTrends == trends
    ensures r.averages.Keys == AveragedMetrics
    ensures forall m :: m in AveragedMetrics ==> r.averages[m] == totals[m] / matches as real
    ensures r.careerPassAccuracy.Some? <==> totals[Passes] > 0.0
    ensures r.careerDribbleSuccessRate.Some? <==> totals[Dribbles] > 0.0
    ensures r.careerCrossAccuracy.Some? <==> totals[Crosses] > 0.0
    ensures r.careerAerialDuelSuccessRate.Some? <==> totals[AerialDuels] > 0.0
    ensures r.mostCommonPlayingStyle.Some? <==> |styles| > 0
    ensures r.mostCommonPlayingStyle.Some? ==> r.mostCommonPlayingStyle.value == MostCommon(styles)
    ensures r.avgPerformanceScore.Some? <==> |scores| > 0
    ensures r.avgPerformanceScore.Some? ==> Min(scores) <= r.avgPerformanceScore.value <= Max(scores)
  {
    CareerAggregates(
      matches, totals, scores, styles, trends,
      map m | m in AveragedMetrics :: totals[m] / matches as real,
      RateIfPositive(totals[SuccessfulPasses], totals[Passes]),
      RateIfPositive(totals[SuccessfulDribbles], totals[Dribbles]),
      RateIfPositive(totals[SuccessfulCrosses], totals[Crosses]),
      RateIfPositive(totals[AerialDuelsWon], totals[AerialDuels]),
      if |styles| > 0 then Some(MostCommon(styles)) else None,
      if |scores| > 0 then Some(Mean(scores)) else None)
  }

  /** What `_calculate_career_aggregates` returns; None is the empty dictionary. */
  function CareerOf(s: seq<MatchAnalysis>): (r: Option<CareerAggregates>)
    ensures r.Some? <==> |s| > 0
  {
    if |s| == 0 then None
    else Some(FinishCareer(|s|, Accumulated(s, AllMetrics), Scores(s), Styles(s), Trends(s)))
  }

  /** Each career total is the sum of the metric over all the analyses. */
  lemma CareerTotalsAreSums(s: seq<MatchAnalysis>, m: Metric)
    requires |s| > 0
    ensures CareerOf(s).value.totals[m] == SumBy(s, ContributionTo(m))
  {
  }

  /** The loop over the analyses, then the averages and rates. */
  method CalculateCareerAggregates(analyses: seq<MatchAnalysis>) returns (r: Option<CareerAggregates>)
    ensures r == CareerOf(analyses)
    ensures r.Some? ==> r.value.totalMatches == |analyses|
    ensures r.Some? ==> |r.value.performanceScores| == Count(analyses, HasScore)
  {
    if |analyses| == 0 {
      return None;
    }
    var totals := Zeros(AllMetrics);
    ZerosAreEmptySums(AllMetrics);
    var scores: seq<real> := [];
    var styles: seq<string> := [];
    var trends: seq<string> := [];
    for i := 0 to |analyses|
      invariant totals == Accumulated(analyses[..i], AllMetrics)
      invariant scores == Scores(analyses[..i])
      invariant styles == Styles(analyses[..i])
      invariant trends == Trends(analyses[..i])
    {
      var a := analyses[i];
      TakeOneMore(analyses, i);
      AccumulatedSnoc(analyses[..i], a, AllMetrics);
      totals := AddMatch(totals, a);
      if a.performanceScore.Some? {
        scores := scores + [a.performanceScore.value];
      }
      if a.playingStyle.Some? {
        styles := styles + [a.playingStyle.value];
      }
      if a.performanceTrend.Some? {
        trends := trends + [a.performanceTrend.value];
      }
    }
    assert analyses[..|analyses|] == analyses;
    r := Some(FinishCareer(|analyses|, totals, scores, styles, trends));
  }

  // ---------------------------------------------------------------------------
  // Competition breakdown

  function CompetitionOf(a: MatchAnalysis): Option<int> {
    a.competitionId
  }

  /** A competition's running dictionary inside the loop. */
  datatype CompetitionTotals = CompetitionTotals(matches: nat, totals: map<Metric, real>, performanceScores: seq<real>)

  /** A competition's final dictionary. */
  datatype CompetitionStats = CompetitionStats(
    matches: nat,
    totals: map<Metric, real>,
    performanceScores: seq<real>,
    averages: map<Metric, real>,
    passAccuracy: Option<real>,
    dribbleSuccessRate: Option<real>,
    avgPerformanceScore: Option<real>)

  /** The running dictionary of a competition after the analyses `g` of that competition. */
  function Running(g: seq<MatchAnalysis>): CompetitionTotals {
    CompetitionTotals(|g|, Accumulated(g, BreakdownMetrics), Scores(g))
  }

  /** One loop step for the analysis' competition. */
  function AddToCompetition(e: CompetitionTotals, a: MatchAnalysis): CompetitionTotals {
    CompetitionTotals(
      e.matches + 1,
      AddMatch(e.totals, a),
      e.performanceScores + (if a.performanceScore.Some? then [a.performanceScore.value] else []))
  }

  lemma RunningSnoc(g: seq<MatchAnalysis>, a: MatchAnalysis)
    ensures Running(g + [a]) == AddToCompetition(Running(g), a)
  {
    AccumulatedSnoc(g, a, BreakdownMetrics);
    assert (g + [a])[..|g|] == g;
  }

  /** The per-match averages and the rates of a competition. */
  function FinishCompetition(e: CompetitionTotals): (r: CompetitionStats)
    requires e.totals.Keys == BreakdownMetrics
    ensures r.matches == e.matches && r.totals == e.totals && r.performanceScores == e.performanceScores
    ensures e.matches > 0 ==> r.averages.Keys == BreakdownAveraged
    ensures e.matches > 0 ==> forall m :: m in BreakdownAveraged ==> r.averages[m] == e.totals[m] / e.matches as real
    ensures r.passAccuracy.Some? <==> e.matches > 0 && e.totals[Passes] > 0.0
    ensures r.dribbleSuccessRate.Some? <==> e.matches > 0 && e.totals[Dribbles] > 0.0
    ensures r.avgPerformanceScore.Some? <==> e.matches > 0 && |e.performanceScores| > 0
    ensures r.avgPerformanceScore.Some? ==> Min(e.performanceScores) <= r.avgPerformanceScore.value <= Max(e.performanceScores)
  {
    if e.matches > 0 then
      CompetitionStats(
        e.matches, e.totals, e.performanceScores,
        map m | m in BreakdownAveraged :: e.totals[m] / e.matches as real,
        RateIfPositive(e.totals[SuccessfulPasses], e.totals[Passes]),
        RateIfPositive(e.totals[SuccessfulDribbles], e.totals[Dribbles]),
        if |e.performanceScores| > 0 then Some(Mean(e.performanceScores)) else None)
    else
      CompetitionStats(e.matches, e.totals, e.performanceScores, map[], None, None, None)
  }

  /** The analyses of competition `c`, in input order. */
  function OfCompetition(s: seq<MatchAnalysis>, c: Option<int>): seq<MatchAnalysis> {
    Filter(s, WithKey(CompetitionOf, c))
  }

  /** The competitions in order of first appearance (the dictionary's insertion order). */
  function Competitions(s: seq<MatchAnalysis>): seq<Option<int>> {
    Distinct(Keys(s, CompetitionOf))
  }

  /** The breakdown dictionary: its keys in insertion order, and the entries. */
  datatype Breakdown = Breakdown(order: seq<Option<int>>, entries: map<Option<int>, CompetitionStats>)

  /** What `_calculate_competition_breakdown` returns; None is the empty dictionary. */
  function BreakdownOf(s: seq<MatchAnalysis>): (r: Option<Breakdown>)
    ensures r.Some? <==> |s| > 0
    ensures r.Some? ==> r.value.order == Competitions(s)
    ensures r.Some? ==> forall c :: c in r.value.entries <==> c in Competitions(s)
  {
    if |s| == 0 then None
    else Some(Breakdown(Competitions(s), map c | c in Competitions(s) :: EntryOf(s, c)))
  }

  /** The final dictionary of competition `c`. */
  function EntryOf(s: seq<MatchAnalysis>, c: Option<int>): CompetitionStats {
    FinishCompetition(Running(OfCompetition(s, c)))
  }

  /** What the first loop has built after the analyses `s`: the competitions seen so
      far in order of first appearance, each with the running totals of its analyses. */
  ghost predicate Collected(s: seq<MatchAnalysis>, order: seq<Option<int>>, running: map<Option<int>, CompetitionTotals>) {
    && order == Competitions(s)
    && (forall c :: c in running <==> c in order)
    && (forall c :: c in running ==> running[c] == Running(OfCompetition(s, c)))
  }

  const NoMatches: CompetitionTotals := CompetitionTotals(0, Zeros(BreakdownMetrics), [])

  /** One step of the first loop keeps `Collected`. */
  lemma CollectStep(s: seq<MatchAnalysis>, a: MatchAnalysis,
                    order: seq<Option<int>>, running: map<Option<int>, CompetitionTotals>,
                    order': seq<Option<int>>, running': map<Option<int>, CompetitionTotals>)
    requires Collected(s, order, running)
    requires order' == if a.competitionId in running then order else order + [a.competitionId]
    requires running' == Step(running, a)
    ensures Collected(s + [a], order', running')
  {
    assert Keys(s + [a], CompetitionOf) == Keys(s, CompetitionOf) + [a.competitionId];
    assert order' == Competitions(s + [a]);
    assert forall c :: c in running' <==> c in order';
    StepRunning(s, a, running);
  }

  /** A competition not seen yet has no analyses. */
  lemma UnseenCompetition(s: seq<MatchAnalysis>, c: Option<int>)
    requires c !in Competitions(s)
    ensures OfCompetition(s, c) == []
  {
    forall y | y in s ensures !WithKey(CompetitionOf, c)(y) {
      KeyOfMember(s, CompetitionOf, y);
    }
    CountNone(s, WithKey(CompetitionOf, c));
  }

  lemma StepRunning(s: seq<MatchAnalysis>, a: MatchAnalysis, running: map<Option<int>, CompetitionTotals>)
    requires forall c :: c in running <==> c in Competitions(s)
    requires forall c :: c in running ==> running[c] == Running(OfCompetition(s, c))
    ensures forall c :: c in Step(running, a) ==> Step(running, a)[c] == Running(OfCompetition(s + [a], c))
  {
    forall c | c in Step(running, a) ensures Step(running, a)[c] == Running(OfCompetition(s + [a], c)) {
      if c == a.competitionId {
        if c !in running {
          UnseenCompetition(s, c);
        }
        StepOwn(s, a, running);
      } else {
        StepOther(s, a, running, c);
      }
    }
  }

  /** The entry of the analysis' own competition takes in the analysis. */
  lemma StepOwn(s: seq<MatchAnalysis>, a: MatchAnalysis, running: map<Option<int>, CompetitionTotals>)
    requires a.competitionId in running ==> running[a.competitionId] == Running(OfCompetition(s, a.competitionId))
    requires a.competitionId !in running ==> OfCompetition(s, a.competitionId) == []
    ensures Step(running, a)[a.competitionId] == Running(OfCompetition(s + [a], a.competitionId))
  {
    var c0 := a.competitionId;
    var seen := if c0 in running then running[c0] else NoMatches;
    assert seen == Running(OfCompetition(s, c0)) by {
      if c0 !in running {
        ZerosAreEmptySums(BreakdownMetrics);
      }
    }
    assert Step(running, a)[c0] == AddToCompetition(seen, a);
    RunningSnoc(OfCompetition(s, c0), a);
    FilterSnoc(s, a, WithKey(CompetitionOf, c0));
    assert CompetitionOf(a) == c0;
    assert WithKey(CompetitionOf, c0)(a);
    assert OfCompetition(s + [a], c0) == OfCompetition(s, c0) + [a];
  }

  /** The entries of the other competitions do not change. */
  lemma StepOther(s: seq<MatchAnalysis>, a: MatchAnalysis, running: map<Option<int>, CompetitionTotals>, c: Option<int>)
    requires c != a.competitionId && c in running
    requires running[c] == Running(OfCompetition(s, c))
    ensures Step(running, a)[c] == Running(OfCompetition(s + [a], c))
  {
    FilterSnoc(s, a, WithKey(CompetitionOf, c));
    assert CompetitionOf(a) != c;
    assert !WithKey(CompetitionOf, c)(a);
    assert OfCompetition(s + [a], c) == OfCompetition(s, c);
  }

  /** What the body of the first loop does to the running dictionaries. */
  function Step(running: map<Option<int>, CompetitionTotals>, a: MatchAnalysis): map<Option<int>, CompetitionTotals> {
    var c0 := a.competitionId;
    var seen := if c0 in running then running else running[c0 := NoMatches];
    seen[c0 := AddToCompetition(seen[c0], a)]
  }

  /** The body of the first loop: create the competition's entry on first sight
      (appending it to the insertion order), then add the analysis to it. */
  method AddAnalysis(order: seq<Option<int>>, running: map<Option<int>, CompetitionTotals>, a: MatchAnalysis)
    returns (order': seq<Option<int>>, running': map<Option<int>, CompetitionTotals>)
    ensures order' == if a.competitionId in running then order else order + [a.competitionId]
    ensures running' == Step(running, a)
  {
    order', running' := order, running;
    var c0 := a.competitionId;
    if c0 !in running' {
      running' := running'[c0 := NoMatches];
      order' := order' + [c0];
    }
    running' := running'[c0 := AddToCompetition(running'[c0], a)];
  }

  /** The first loop: each analysis is added to the entry of its competition. */
  method CollectCompetitions(analyses: seq<MatchAnalysis>)
    returns (order: seq<Option<int>>, running: map<Option<int>, CompetitionTotals>)
    ensures Collected(analyses, order, running)
  {
    order, running := [], map[];
    for i := 0 to |analyses|
      invariant Collected(analyses[..i], order, running)
    {
      var order', running' := AddAnalysis(order, running, analyses[i]);
      CollectStep(analyses[..i], analyses[i], order, running, order', running');
      TakeOneMore(analyses, i);
      order, running := order', running';
    }
    assert analyses[..|analyses|] == analyses;
  }

  /** The second loop: the averages and rates of every competition. */
  method FinishCompetitions(order: seq<Option<int>>, running: map<Option<int>, CompetitionTotals>)
    returns (entries: map<Option<int>, CompetitionStats>)
    requires forall c :: c in running <==> c in order
    requires forall c :: c in running ==> running[c].totals.Keys == BreakdownMetrics
    ensures forall c :: c in entries <==> c in order
    ensures forall c :: c in entries ==> entries[c] == FinishCompetition(running[c])
  {
    entries := map[];
    for j := 0 to |order|
      invariant forall c :: c in entries <==> c in order[..j]
      invariant forall c :: c in entries ==> entries[c] == FinishCompetition(running[c])
    {
      assert order[..j + 1] == order[..j] + [order[j]];
      entries := entries[order[j] := FinishCompetition(running[order[j]])];
    }
    assert order[..|order|] == order;
  }

  /** `_calculate_competition_breakdown` */
  method CalculateCompetitionBreakdown(analyses: seq<MatchAnalysis>) returns (r: Option<Breakdown>)
    ensures r == BreakdownOf(analyses)
  {
    if |analyses| == 0 {
      return None;
    }
    var order, running := CollectCompetitions(analyses);
    var entries := FinishCompetitions(order, running);
    BreakdownEntries(analyses, order, running, entries);
    r := Some(Breakdown(order, entries));
  }

  lemma BreakdownEntries(analyses: seq<MatchAnalysis>, order: seq<Option<int>>,
                         running: map<Option<int>, CompetitionTotals>, entries: map<Option<int>, CompetitionStats>)
    requires |analyses| > 0
    requires Collected(analyses, order, running)
    requires forall c :: c in entries <==> c in order
    requires forall c :: c in entries ==> entries[c] == FinishCompetition(running[c])
    ensures Breakdown(order, entries) == BreakdownOf(analyses).value
  {
    forall c | c in entries ensures c in BreakdownOf(analyses).value.entries && entries[c] == BreakdownOf(analyses).value.entries[c] {
      EntryAgrees(analyses, running[c], entries[c], c);
    }
    SameMaps(entries, BreakdownOf(analyses).value.entries);
  }

  /** Two maps with the same keys and the same value at every key are equal. */
  lemma SameMaps<K, V>(a: map<K, V>, b: map<K, V>)
    requires forall k :: k in a <==> k in b
    requires forall k :: k in a ==> a[k] == b[k]
    ensures a == b
  {
    assert a.Keys == b.Keys;
  }

  /** One competition's entry, finished from its running totals, is the one the
      breakdown specifies. */
  lemma EntryAgrees(analyses: seq<MatchAnalysis>, e: CompetitionTotals, stats: CompetitionStats, c: Option<int>)
    requires |analyses| > 0 && c in Competitions(analyses)
    requires e == Running(OfCompetition(analyses, c))
    requires stats == FinishCompetition(e)
    ensures c in BreakdownOf(analyses).value.entries && stats == BreakdownOf(analyses).value.entries[c]
  {
    assert stats == EntryOf(analyses, c);
  }

  /** The matches of the competitions `ks`, added up. */
  function MatchesOver(b: Breakdown, ks: seq<Option<int>>): nat
    requires forall k :: k in ks ==> k in b.entries
  {
    if |ks| == 0 then 0 else MatchesOver(b, ks[..|ks| - 1]) + b.entries[ks[|ks| - 1]].matches
  }

  /** The total of metric `m` over the competitions `ks`. */
  function TotalOver(b: Breakdown, ks: seq<Option<int>>, m: Metric): real
    requires forall k :: k in ks ==> k in b.entries
  {
    if |ks| == 0 then 0.0
    else
      var e := b.entries[ks[|ks| - 1]];
      TotalOver(b, ks[..|ks| - 1], m) + (if m in e.totals then e.totals[m] else 0.0)
  }

  lemma {:induction false} MatchesOverGroups(s: seq<MatchAnalysis>, ks: seq<Option<int>>)
    requires |s| > 0
    requires forall k :: k in ks ==> k in Competitions(s)
    ensures MatchesOver(BreakdownOf(s).value, ks) == GroupSizes(s, CompetitionOf, ks)
    decreases |ks|
  {
    if |ks| > 0 {
      MatchesOverGroups(s, ks[..|ks| - 1]);
    }
  }

  /** Every analysis is counted in exactly one competition: the `matches` add up to
      the number of analyses. */
  lemma BreakdownMatchesCoverInput(s: seq<MatchAnalysis>)
    requires |s| > 0
    ensures MatchesOver(BreakdownOf(s).value, BreakdownOf(s).value.order) == |s|
  {
    MatchesOverGroups(s, Competitions(s));
    GroupSizesCoverInput(s, CompetitionOf);
  }

  lemma {:induction false} TotalOverGroups(s: seq<MatchAnalysis>, ks: seq<Option<int>>, m: Metric)
    requires |s| > 0 && m in BreakdownMetrics
    requires forall k :: k in ks ==> k in Competitions(s)
    ensures TotalOver(BreakdownOf(s).value, ks, m) == GroupTotals(s, CompetitionOf, ContributionTo(m), ks)
    decreases |ks|
  {
    if |ks| > 0 {
      TotalOverGroups(s, ks[..|ks| - 1], m);
    }
  }

  /** Each competition total is the sum over that competition's analyses, so the
      competitions' totals add up to the career total. */
  lemma BreakdownTotalsAddUpToCareer(s: seq<MatchAnalysis>, m: Metric)
    requires |s| > 0 && m in BreakdownMetrics
    ensures TotalOver(BreakdownOf(s).value, BreakdownOf(s).value.order, m) == CareerOf(s).value.totals[m]
  {
    TotalOverGroups(s, Competitions(s), m);
    GroupTotalsCoverInput(s, CompetitionOf, ContributionTo(m));
    CareerTotalsAreSums(s, m);
  }
}
