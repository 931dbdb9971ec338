/** `calculate_comprehensive_player_analysis` and `generate_summary_insights`:
    the three statistics dictionaries of one table and the insights drawn from them. */
module SummaryInsights {
  import opened Wrappers
  import opened Events
  import opened PlayerStatistics
  import opened AdvancedMetrics

  /** The analysis dictionary: basic_stats, period_stats, advanced_stats and the
      player and team names when the table has them. */
  datatype Analysis = Analysis(
    playerName: Option<string>,
    teamName: Option<string>,
    basic: BasicStats,
    periodStats: PeriodStats,
    advanced: AdvancedStats)

  /** The modelled keys of the insights dictionary. */
  datatype Insights = Insights(
    playerName: Option<string>,
    teamName: Option<string>,
    performanceScore: Option<real>,
    performanceTrend: Option<string>,
    keyStrengths: seq<string>)

  function NamesCount(playerName: Option<string>, teamName: Option<string>): nat {
    (if playerName.Some? then 1 else 0) + (if teamName.Some? then 1 else 0)
  }

  /** `len(analysis)`: the three statistics keys and the names present. */
  function AnalysisSize(a: Analysis): nat {
    3 + NamesCount(a.playerName, a.teamName)
  }

  /** `len(period_stats)`: the names present and one key per period. */
  function PeriodStatsSize(s: PeriodStats): nat {
    NamesCount(s.playerName, s.teamName) + |s.periods|
  }

  /** `advanced.get('progressive_actions', 0)` */
  function ProgressiveCount(adv: AdvancedStats): nat {
    if adv.progression.Some? then adv.progression.value.actions else 0
  }

  /** `basic.get('pass_accuracy', 0)` */
  function PassAccuracy(b: BasicStats): real {
    if b.passes.Some? then b.passes.value.accuracy else 0.0
  }

  /** `advanced.get('pressure_success_rate', 0)` */
  function PressureRate(adv: AdvancedStats): real {
    if adv.pressure.Some? then adv.pressure.value.successRate else 0.0
  }

  /** The weighted score, capped at 1: pass accuracy (0.4), the action rate relative
      to 10 per minute capped at 1 (0.3), and progressive actions per analysis key (0.3). */
  function PerformanceScore(a: Analysis): (r: Option<real>)
    ensures r.Some? <==> a.basic.passes.Some? && a.basic.playingTime.Some?
    ensures r.Some? ==> r.value <= 1.0
    ensures r.Some? && a.basic.passes.value.accuracy >= 0.0 && a.basic.playingTime.value.actionsPerMinute >= 0.0 ==>
      r.value >= 0.0
    ensures (r.Some? && a.basic.passes.value.accuracy == 1.0 && a.basic.playingTime.value.actionsPerMinute >= 10.0
             && ProgressiveCount(a.advanced) >= AnalysisSize(a)) ==> r.value == 1.0
    ensures r.Some? && a.basic.passes.value.accuracy <= 1.0 && ProgressiveCount(a.advanced) == 0 ==> r.value <= 0.7
  {
    if a.basic.passes.Some? && a.basic.playingTime.Some? then
      var rate := a.basic.playingTime.value.actionsPerMinute / 10.0;
      var perKey := ProgressiveCount(a.advanced) as real / AnalysisSize(a) as real;
      assert perKey >= 0.0;
      assert ProgressiveCount(a.advanced) >= AnalysisSize(a) ==> perKey >= 1.0 by {
        if ProgressiveCount(a.advanced) >= AnalysisSize(a) { AtLeastOnePerGroup(ProgressiveCount(a.advanced), AnalysisSize(a)); }
      }
      var score := a.basic.passes.value.accuracy * 0.4 + (if rate < 1.0 then rate else 1.0) * 0.3 + perKey * 0.3;
      Some(if score < 1.0 then score else 1.0)
    else
      None
  }

  /** `period_stats.get('period_<p>', {}).get('total_passes', 0)` */
  function PeriodPasses(s: PeriodStats, p: int): nat {
    PassesOfFirst(s.periods, p)
  }

  function PassesOfFirst(entries: seq<PeriodEntry>, p: int): nat {
    if |entries| == 0 then 0
    else if entries[0].period == p then (if entries[0].stats.passes.Some? then entries[0].stats.passes.value.total else 0)
    else PassesOfFirst(entries[1..], p)
  }

  /** The change in passes from period 1 to period 2, relative to period 1: above 20%
      is an improvement, below -20% a decline. Integer forms of the two thresholds:
      (p2 - p1) / p1 > 0.2 is 5 p2 > 6 p1 and (p2 - p1) / p1 < -0.2 is 5 p2 < 4 p1. */
  function PerformanceTrend(s: PeriodStats): (r: Option<string>)
    ensures r.Some? <==> PeriodStatsSize(s) >= 2 && PeriodPasses(s, 1) > 0 && PeriodPasses(s, 2) > 0
    ensures r == Some("Improved in second half") <==>
      r.Some? && 5 * PeriodPasses(s, 2) > 6 * PeriodPasses(s, 1)
    ensures r == Some("Declined in second half") <==>
      r.Some? && 5 * PeriodPasses(s, 2) < 4 * PeriodPasses(s, 1)
    ensures r == Some("Consistent performance") <==>
      r.Some? && 4 * PeriodPasses(s, 1) <= 5 * PeriodPasses(s, 2) <= 6 * PeriodPasses(s, 1)
  {
    var p1, p2 := PeriodPasses(s, 1), PeriodPasses(s, 2);
    if PeriodStatsSize(s) >= 2 && p1 > 0 && p2 > 0 then
      var change := (p2 - p1) as real / p1 as real;
      ChangeThresholds(p1, p2);
      if change > 0.2 then Some("Improved in second half")
      else if change < -0.2 then Some("Declined in second half")
      else Some("Consistent performance")
    else
      None
  }

  lemma ChangeThresholds(p1: nat, p2: nat)
    requires p1 > 0
    ensures (p2 - p1) as real / p1 as real > 0.2 <==> 5 * p2 > 6 * p1
    ensures (p2 - p1) as real / p1 as real < -0.2 <==> 5 * p2 < 4 * p1
  {
    DivisionThreshold((p2 - p1) as real, p1 as real, 0.2);
    DivisionThreshold((p2 - p1) as real, p1 as real, -0.2);
  }

  /** The position of a strength label in the order the insights test them. */
  function StrengthRank(strength: string): nat {
    if strength == "High pass accuracy" then 0
    else if strength == "Progressive play" then 1
    else if strength == "Effective pressing" then 2
    else 3
  }

  /** The key strengths, in this order: high pass accuracy, progressive play, effective pressing. */
  function KeyStrengths(a: Analysis): (r: seq<string>)
    ensures "High pass accuracy" in r <==> PassAccuracy(a.basic) > 0.85
    ensures "Progressive play" in r <==> ProgressiveCount(a.advanced) > 10
    ensures "Effective pressing" in r <==> PressureRate(a.advanced) > 0.6
    ensures |r| <= 3
    ensures |r| > 0 && PassAccuracy(a.basic) > 0.85 ==> r[0] == "High pass accuracy"
    ensures forall i :: 0 <= i < |r| ==> StrengthRank(r[i]) < 3
    ensures forall i, j :: 0 <= i < j < |r| ==> StrengthRank(r[i]) < StrengthRank(r[j])
  {
    (if PassAccuracy(a.basic) > 0.85 then ["High pass accuracy"] else [])
    + (if ProgressiveCount(a.advanced) > 10 then ["Progressive play"] else [])
    + (if PressureRate(a.advanced) > 0.6 then ["Effective pressing"] else [])
  }

  /** `generate_summary_insights` without the playing style. */
  function GenerateSummaryInsights(a: Analysis): (r: Insights)
    ensures r.playerName == a.playerName && r.teamName == a.teamName
    ensures r.performanceScore == PerformanceScore(a)
    ensures r.performanceTrend == PerformanceTrend(a.periodStats)
    ensures r.keyStrengths == KeyStrengths(a)
  {
    Insights(a.playerName, a.teamName, PerformanceScore(a), PerformanceTrend(a.periodStats), KeyStrengths(a))
  }

  /** The analysis of a table, assembled from the three statistics. */
  function AnalysisOf(t: Table): Analysis {
    Analysis(
      PlayerName(t),
      TeamName(t),
      CalculatePlayerStatistics(t),
      PeriodStats(PlayerName(t), TeamName(t), if "period" in t.columns then PeriodEntries(t, PeriodsOf(t)) else []),
      AdvancedMetricsOf(t))
  }

  /** `calculate_comprehensive_player_analysis`: the analysis and its insights. */
  method CalculateComprehensivePlayerAnalysis(t: Table) returns (a: Analysis, insights: Insights)
    ensures a == AnalysisOf(t)
    ensures insights == GenerateSummaryInsights(a)
  {
    var periodStats := CalculatePeriodStatistics(t);
    var advanced := CalculateAdvancedMetrics(t);
    a := Analysis(PlayerName(t), TeamName(t), CalculatePlayerStatistics(t), periodStats, advanced);
    insights := GenerateSummaryInsights(a);
  }

  /** The insights of any table rank its pressing as never effective, since the
      pressure success rate is always 0. */
  lemma NeverEffectivePressing(t: Table)
    ensures "Effective pressing" !in GenerateSummaryInsights(AnalysisOf(t)).keyStrengths
  {
  }

  /** For the analysis of a table, the performance score lies in [0, 1]. */
  lemma ScoreInUnitInterval(t: Table)
    ensures GenerateSummaryInsights(AnalysisOf(t)).performanceScore.Some? ==>
      0.0 <= GenerateSummaryInsights(AnalysisOf(t)).performanceScore.value <= 1.0
  {
  }
}
