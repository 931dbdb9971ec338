/** `calculate_advanced_metrics`: pass-length buckets, progressive actions,
    pressure effectiveness, the 15-minute buckets of each period and the
    remaining counters over one player's events. */
module AdvancedMetrics {
  import opened Wrappers
  import opened Sequences
  import opened Grouping
  import opened Events
  import opened PlayerStatistics

  /** A success tally: successes, size of the group and the success rate. */
  datatype Tally = Tally(successful: nat, total: nat, rate: real)

  /** `<bucket>_passes_count` and `<bucket>_pass_accuracy`. */
  datatype PassBucket = PassBucket(count: nat, accuracy: real)

  /** progressive_actions, total_distance_gained, avg_distance_gained_per_action. */
  datatype Progression = Progression(actions: nat, distanceGained: real, avgGainedPerAction: real)

  /** successful_pressures and pressure_success_rate. */
  datatype PressureOutcome = PressureOutcome(successful: nat, successRate: real)

  /** shots_from_inside_box and shots_from_outside_box. */
  datatype ShotZones = ShotZones(insideBox: nat, outsideBox: nat)

  /** possession_sequences and avg_actions_per_possession. */
  datatype PossessionStats = PossessionStats(sequences: nat, avgActionsPerPossession: real)

  /** The keys `period_<p>_actions_0_15min`, `_15_30min`, `_30_45min` and `_45_60min`. */
  datatype QuarterCounts = QuarterCounts(period: int, first: nat, second: nat, third: nat, final: nat)

  /** actions_under_pressure, pressure_percentage, pass_accuracy_under_pressure. */
  datatype UnderPressureStats = UnderPressureStats(actions: nat, percentage: real, passAccuracy: Option<real>)

  /** The modelled keys of the `advanced_stats` dictionary; an absent key is None. */
  datatype AdvancedStats = AdvancedStats(
    playerName: Option<string>,
    teamName: Option<string>,
    shortPasses: Option<PassBucket>,
    mediumPasses: Option<PassBucket>,
    longPasses: Option<PassBucket>,
    progression: Option<Progression>,
    pressure: Option<PressureOutcome>,
    ballRecoveries: nat,
    dribbles: Option<Tally>,
    foulsCommitted: nat,
    foulsWon: nat,
    aerialDuels: Option<Tally>,
    crosses: Option<Tally>,
    keyPasses: Option<nat>,
    assists: Option<nat>,
    shotZones: Option<ShotZones>,
    possession: Option<PossessionStats>,
    quarters: seq<QuarterCounts>,
    defensiveActions: nat,
    underPressure: Option<UnderPressureStats>,
    setPieceActions: nat)

  /** The success tally of a group, present only when the group is not empty. */
  function TallyOf(group: seq<Event>, success: Event -> bool): (r: Option<Tally>)
    ensures r.Some? <==> |group| > 0
    ensures r.Some? ==>
      && r.value.total == |group|
      && r.value.successful == Count(group, success)
      && r.value.successful <= r.value.total
      && 0.0 <= r.value.rate <= 1.0
      && r.value.rate * r.value.total as real == r.value.successful as real
      && (r.value.rate == 1.0 <==> r.value.successful == r.value.total)
      && (r.value.rate == 0.0 <==> r.value.successful == 0)
  {
    if |group| == 0 then None
    else
      var ok := Count(group, success);
      RatioBounds(ok, |group|);
      Some(Tally(ok, |group|, Ratio(ok, |group|)))
  }

  // ---------------------------------------------------------------------------
  // 1. Passes by length

  function Passes(t: Table): seq<Event> {
    Filter(t.rows, OfType("Pass"))
  }

  /** A NaN length compares false with every bound, so it is in no bucket. */
  predicate HasPassLength(e: Event) { e.passLength.Some? }
  predicate ShortPass(e: Event) { e.passLength.Some? && e.passLength.value <= 15.0 }
  predicate MediumPass(e: Event) { e.passLength.Some? && 15.0 < e.passLength.value <= 30.0 }
  predicate LongPass(e: Event) { e.passLength.Some? && e.passLength.value > 30.0 }

  /** One length bucket: its count and the share of its passes that were completed;
      both keys appear only when the table has a pass-length column and the bucket
      holds a pass. */
  function LengthBucket(t: Table, inBucket: Event -> bool): (r: Option<PassBucket>)
    ensures r.Some? <==> "pass_length" in t.columns && Count(Passes(t), inBucket) > 0
    ensures r.Some? ==>
      && r.value.count == Count(Passes(t), inBucket)
      && 0.0 <= r.value.accuracy <= 1.0
      && (r.value.accuracy == 1.0 <==> Count(Filter(Passes(t), inBucket), NoOutcome) == r.value.count)
  {
    var passes := Passes(t);
    if |passes| > 0 && "pass_length" in t.columns then
      match TallyOf(Filter(passes, inBucket), NoOutcome)
      case Some(k) => Some(PassBucket(k.total, k.rate))
      case None => None
    else
      None
  }

  function BucketCount(b: Option<PassBucket>): nat {
    if b.Some? then b.value.count else 0
  }

  /** The three buckets are disjoint and together hold exactly the passes whose
      length is known. */
  lemma PassBucketsPartition(t: Table)
    requires "pass_length" in t.columns
    ensures BucketCount(LengthBucket(t, ShortPass)) + BucketCount(LengthBucket(t, MediumPass))
            + BucketCount(LengthBucket(t, LongPass)) == Count(Passes(t), HasPassLength)
    ensures forall e :: !(ShortPass(e) && MediumPass(e)) && !(ShortPass(e) && LongPass(e)) && !(MediumPass(e) && LongPass(e))
  {
    CountThree(Passes(t), ShortPass, MediumPass, LongPass, HasPassLength);
  }

  // ---------------------------------------------------------------------------
  // 2. Progressive actions

  predicate HasCoordinates(e: Event) {
    e.x.Some? && e.y.Some? && e.endX.Some? && e.endY.Some?
  }

  /** An action that moves the ball more than 5 m towards the opponent's goal. */
  predicate IsProgressive(e: Event) {
    HasCoordinates(e) && e.endX.value - e.x.value > 5.0
  }

  /** The distance a progressive action gains; other actions gain nothing. */
  function ProgressiveGain(e: Event): real {
    if IsProgressive(e) then e.endX.value - e.x.value else 0.0
  }

  /** The loop over the rows: the number of progressive actions and the distance they gain. */
  method ProgressiveActions(rows: seq<Event>) returns (actions: nat, gained: real)
    ensures actions == Count(rows, IsProgressive)
    ensures gained == SumBy(rows, ProgressiveGain)
  {
    actions, gained := 0, 0.0;
    for i := 0 to |rows|
      invariant actions == Count(rows[..i], IsProgressive)
      invariant gained == SumBy(rows[..i], ProgressiveGain)
    {
      var e := rows[i];
      assert rows[..i + 1] == rows[..i] + [e];
      FilterSnoc(rows[..i], e, IsProgressive);
      SumBySnoc(rows[..i], e, ProgressiveGain);
      if e.x.Some? && e.y.Some? && e.endX.Some? && e.endY.Some? {
        var distance := e.endX.value - e.x.value;
        if distance > 5.0 {
          actions := actions + 1;
          gained := gained + distance;
        }
      }
    }
    assert rows[..|rows|] == rows;
  }

  /** Each counted action gains more than 5 m, so the distance gained exceeds five
      times the count as soon as one action counts. */
  lemma {:induction false} DistanceGainedBound(rows: seq<Event>)
    ensures SumBy(rows, ProgressiveGain) >= 5.0 * Count(rows, IsProgressive) as real
    ensures Count(rows, IsProgressive) > 0 ==> SumBy(rows, ProgressiveGain) > 5.0 * Count(rows, IsProgressive) as real
    ensures Count(rows, IsProgressive) == 0 ==> SumBy(rows, ProgressiveGain) == 0.0
    decreases |rows|
  {
    if |rows| > 0 {
      var rows', e := rows[..|rows| - 1], rows[|rows| - 1];
      assert rows == rows' + [e];
      DistanceGainedBound(rows');
      FilterSnoc(rows', e, IsProgressive);
    }
  }

  /** The progressive keys, set only when the four coordinate columns exist. The
      average divides by the number of rows, not by the number of progressive actions. */
  function ProgressionOf(t: Table): (r: Option<Progression>)
    ensures r.Some? <==> "x" in t.columns && "y" in t.columns && "end_x" in t.columns && "end_y" in t.columns
    ensures r.Some? ==>
      && r.value.actions == Count(t.rows, IsProgressive)
      && r.value.distanceGained == SumBy(t.rows, ProgressiveGain)
      && r.value.distanceGained >= 5.0 * r.value.actions as real
      && r.value.avgGainedPerAction >= 0.0
      && (r.value.avgGainedPerAction > 0.0 <==> r.value.actions > 0)
  {
    if "x" in t.columns && "y" in t.columns && "end_x" in t.columns && "end_y" in t.columns then
      var actions := Count(t.rows, IsProgressive);
      var gained := SumBy(t.rows, ProgressiveGain);
      DistanceGainedBound(t.rows);
      assert actions > 0 ==> |t.rows| > 0;
      var avg := if |t.rows| > 0 then gained / |t.rows| as real else 0.0;
      assert avg > 0.0 <==> actions > 0 by {
        if |t.rows| > 0 && actions > 0 { PositiveRate(gained, |t.rows| as real); }
      }
      Some(Progression(actions, gained, avg))
    else
      None
  }

  // ---------------------------------------------------------------------------
  // 3. Pressure effectiveness

  /** The event types the code takes as a turnover following a pressure. */
  predicate IsTurnover(e: Event) {
    e.typeName in {"Ball Recovery", "Interception"}
  }

  /** What the loop counts: the pressures whose next row in `pressures` is a turnover. */
  function SuccessfulPressures(pressures: seq<Event>): nat {
    if |pressures| == 0 then 0 else Count(pressures[1..], IsTurnover)
  }

  /** The rows the loop inspects are the pressure rows themselves, none of which is
      a turnover: the counter can never move. */
  lemma PressuresNeverSucceed(rows: seq<Event>)
    ensures SuccessfulPressures(Filter(rows, OfType("Pressure"))) == 0
  {
    var ps := Filter(rows, OfType("Pressure"));
    if |ps| > 0 {
      forall e | e in ps[1..] ensures !IsTurnover(e) {
        assert e in ps;
      }
      CountNone(ps[1..], IsTurnover);
    }
  }

  /** The pressure keys, set only when the player pressed at least once; both are 0. */
  function PressureOf(rows: seq<Event>): (r: Option<PressureOutcome>)
    ensures r.Some? <==> Count(rows, OfType("Pressure")) > 0
    ensures r.Some? ==> r.value.successful == SuccessfulPressures(Filter(rows, OfType("Pressure")))
    ensures r.Some? ==> r.value.successful == 0 && r.value.successRate == 0.0
  {
    var pressures := Filter(rows, OfType("Pressure"));
    if |pressures| == 0 then None
    else
      PressuresNeverSucceed(rows);
      var successful := SuccessfulPressures(pressures);
      Some(PressureOutcome(successful, Ratio(successful, |pressures|)))
  }

  /** The loop over consecutive pressure rows. */
  method PressureEffectiveness(rows: seq<Event>) returns (r: Option<PressureOutcome>)
    ensures r == PressureOf(rows)
  {
    var pressures := Filter(rows, OfType("Pressure"));
    if |pressures| == 0 {
      return None;
    }
    var successful := 0;
    for i := 0 to |pressures| - 1
      invariant successful == Count(pressures[1..i + 1], IsTurnover)
    {
      assert pressures[1..i + 2] == pressures[1..i + 1] + [pressures[i + 1]];
      FilterSnoc(pressures[1..i + 1], pressures[i + 1], IsTurnover);
      if pressures[i + 1].typeName in {"Ball Recovery", "Interception"} {
        successful := successful + 1;
      }
    }
    assert pressures[1..|pressures|] == pressures[1..];
    r := Some(PressureOutcome(successful, Ratio(successful, |pressures|)));
  }

  // ---------------------------------------------------------------------------
  // 7, 8. Duels and crosses

  predicate IsAerial(e: Event) { e.duelType == Some("Aerial") }
  predicate IsCross(e: Event) { e.passCross }
  predicate IsShotAssist(e: Event) { e.shotAssist }
  predicate IsGoalAssist(e: Event) { e.goalAssist }

  /** Aerial duels won, among the duels whose duel type is 'Aerial'. */
  function AerialDuelsOf(t: Table): (r: Option<Tally>)
    ensures r.Some? <==> "duel_type_name" in t.columns && Count(Filter(t.rows, OfType("Duel")), IsAerial) > 0
    ensures r.Some? ==> r.value.total == Count(Filter(t.rows, OfType("Duel")), IsAerial)
  {
    var duels := Filter(t.rows, OfType("Duel"));
    if |duels| > 0 && "duel_type_name" in t.columns then TallyOf(Filter(duels, IsAerial), OutcomeIs("Won")) else None
  }

  /** Completed crosses among the passes flagged as crosses. */
  function CrossesOf(t: Table): (r: Option<Tally>)
    ensures r.Some? <==> "pass_cross" in t.columns && Count(Passes(t), IsCross) > 0
    ensures r.Some? ==> r.value.total == Count(Passes(t), IsCross) && r.value.total <= |Passes(t)|
  {
    var passes := Passes(t);
    if |passes| > 0 && "pass_cross" in t.columns then TallyOf(Filter(passes, IsCross), NoOutcome) else None
  }

  /** A count of flagged passes: set when the table holds a pass and the flag column
      exists, even when no pass is flagged. */
  function FlaggedPasses(t: Table, column: string, flag: Event -> bool): (r: Option<nat>)
    ensures r.Some? <==> column in t.columns && Count(t.rows, OfType("Pass")) > 0
    ensures r.Some? ==> r.value == Count(Passes(t), flag) && r.value <= Count(t.rows, OfType("Pass"))
  {
    var passes := Passes(t);
    if |passes| > 0 && column in t.columns then Some(Count(passes, flag)) else None
  }

  // ---------------------------------------------------------------------------
  // 10, 11. Shot locations and possessions

  predicate HasX(e: Event) { e.x.Some? }
  /** A NaN x compares false both ways, so such a shot is in neither zone. */
  predicate InsideBox(e: Event) { e.x.Some? && e.x.value > 83.0 }
  predicate OutsideBox(e: Event) { e.x.Some? && e.x.value <= 83.0 }

  /** The shot zones, set when the table holds a shot and has x and y columns. */
  function ShotZonesOf(t: Table): (r: Option<ShotZones>)
    ensures r.Some? <==> Count(t.rows, OfType("Shot")) > 0 && "x" in t.columns && "y" in t.columns
    ensures r.Some? ==>
      && r.value.insideBox == Count(Filter(t.rows, OfType("Shot")), InsideBox)
      && r.value.insideBox + r.value.outsideBox == Count(Filter(t.rows, OfType("Shot")), HasX)
  {
    var shots := Filter(t.rows, OfType("Shot"));
    if |shots| > 0 && "x" in t.columns && "y" in t.columns then
      CountThree(shots, InsideBox, OutsideBox, (e: Event) => false, HasX);
      CountNone(shots, (e: Event) => false);
      Some(ShotZones(Count(shots, InsideBox), Count(shots, OutsideBox)))
    else
      None
  }

  predicate HasPossession(e: Event) { e.possession.Some? }

  function PossessionId(e: Event): int {
    e.possession.GetOr(0)
  }

  /** The distinct non-missing possession numbers (`value_counts` drops NaN). */
  function PossessionIds(rows: seq<Event>): seq<int> {
    Distinct(Keys(Filter(rows, HasPossession), PossessionId))
  }

  /** The possession keys, set when the table has a possession column. Every
      possession holds at least one of the rows, so the average is at least 1. */
  function PossessionOf(t: Table): (r: Option<PossessionStats>)
    ensures r.Some? <==> "possession" in t.columns
    ensures r.Some? ==>
      && r.value.sequences == |PossessionIds(t.rows)|
      && r.value.sequences <= Count(t.rows, HasPossession)
      && (r.value.sequences > 0 <==> Count(t.rows, HasPossession) > 0)
      && (r.value.sequences > 0 ==> r.value.avgActionsPerPossession >= 1.0)
      && (r.value.sequences == 0 ==> r.value.avgActionsPerPossession == 0.0)
  {
    if "possession" in t.columns then
      var ids := PossessionIds(t.rows);
      var owned := Filter(t.rows, HasPossession);
      assert |owned| > 0 ==> PossessionId(owned[0]) in ids by {
        if |owned| > 0 { assert Keys(owned, PossessionId)[0] == PossessionId(owned[0]); }
      }
      var avg := if |ids| > 0 then |t.rows| as real / |ids| as real else 0.0;
      assert |ids| > 0 ==> avg >= 1.0 by {
        if |ids| > 0 { AtLeastOnePerGroup(|t.rows|, |ids|); }
      }
      Some(PossessionStats(|ids|, avg))
    else
      None
  }

  /** `n` items in `k` non-empty groups: at least one item per group on average. */
  lemma AtLeastOnePerGroup(n: nat, k: nat)
    requires 0 < k <= n
    ensures n as real / k as real >= 1.0
  {
    DivisionThreshold(n as real, k as real, 1.0);
  }

  // ---------------------------------------------------------------------------
  // 12. Actions per 15 minutes of each period

  /** The buckets read the period clock: at most 900 seconds (0 included, which
      is also the fallback reading), (900, 1800], (1800, 2700] and beyond 2700. */
  predicate FirstQuarter(e: Event) { PeriodClockReading(e) <= 900.0 }
  predicate SecondQuarter(e: Event) { 900.0 < PeriodClockReading(e) <= 1800.0 }
  predicate ThirdQuarter(e: Event) { 1800.0 < PeriodClockReading(e) <= 2700.0 }
  predicate FinalQuarter(e: Event) { PeriodClockReading(e) > 2700.0 }

  /** The four buckets of period `p`: disjoint, and every row of the period is in one. */
  function QuarterCountsOf(rows: seq<Event>, p: int): (r: QuarterCounts)
    ensures r.period == p
    ensures r.first + r.second + r.third + r.final == Count(rows, InPeriod(p))
  {
    var inPeriod := Filter(rows, InPeriod(p));
    CountFour(inPeriod, FirstQuarter, SecondQuarter, ThirdQuarter, FinalQuarter);
    QuarterCounts(p, Count(inPeriod, FirstQuarter), Count(inPeriod, SecondQuarter),
                  Count(inPeriod, ThirdQuarter), Count(inPeriod, FinalQuarter))
  }

  /** The bucket keys of the periods `ps`, in the order of `ps`. */
  function QuarterTable(rows: seq<Event>, ps: seq<int>): (r: seq<QuarterCounts>)
    ensures |r| == |ps|
  {
    if |ps| == 0 then [] else QuarterTable(rows, ps[..|ps| - 1]) + [QuarterCountsOf(rows, ps[|ps| - 1])]
  }

  lemma {:induction false} QuarterTableAt(rows: seq<Event>, ps: seq<int>, i: int)
    requires 0 <= i < |ps|
    ensures QuarterTable(rows, ps)[i] == QuarterCountsOf(rows, ps[i])
  {
    if i < |ps| - 1 {
      QuarterTableAt(rows, ps[..|ps| - 1], i);
    }
  }

  /** The loop over `df['period'].unique()`; no bucket keys at all without both a
      timestamp and a period column. */
  method QuarterBuckets(t: Table) returns (qs: seq<QuarterCounts>)
    ensures !("timestamp" in t.columns && "period" in t.columns) ==> qs == []
    ensures "timestamp" in t.columns && "period" in t.columns ==> qs == QuarterTable(t.rows, PeriodsOf(t))
  {
    qs := [];
    if !("timestamp" in t.columns && "period" in t.columns) {
      return;
    }
    qs := QuarterTableFor(t.rows, PeriodsOf(t));
  }

  /** The buckets of the periods `periods`, one period after the other. */
  method QuarterTableFor(rows: seq<Event>, periods: seq<int>) returns (qs: seq<QuarterCounts>)
    ensures qs == QuarterTable(rows, periods)
  {
    qs := [];
    for i := 0 to |periods|
      invariant qs == QuarterTable(rows, periods[..i])
    {
      assert periods[..i + 1][..i] == periods[..i];
      qs := qs + [QuarterCountsOf(rows, periods[i])];
    }
    assert periods[..|periods|] == periods;
  }

  /** All the actions counted by the buckets of `qs`. */
  function Bucketed(qs: seq<QuarterCounts>): nat {
    if |qs| == 0 then 0 else Bucketed(qs[..|qs| - 1]) + (qs[|qs| - 1].first + qs[|qs| - 1].second + qs[|qs| - 1].third + qs[|qs| - 1].final)
  }

  lemma {:induction false} QuarterTableSizes(rows: seq<Event>, ps: seq<int>)
    ensures Bucketed(QuarterTable(rows, ps)) == GroupSizes(rows, PeriodOf, ps)
    decreases |ps|
  {
    if |ps| > 0 {
      var ps' := ps[..|ps| - 1];
      QuarterTableSizes(rows, ps');
      assert QuarterTable(rows, ps)[..|ps| - 1] == QuarterTable(rows, ps');
    }
  }

  /** Over all periods, the buckets count every row exactly once. */
  lemma QuarterBucketsCoverRows(t: Table)
    ensures Bucketed(QuarterTable(t.rows, PeriodsOf(t))) == |t.rows|
  {
    QuarterTableSizes(t.rows, PeriodsOf(t));
    GroupSizesCoverInput(t.rows, PeriodOf);
  }

  // ---------------------------------------------------------------------------
  // 14. Under pressure

  predicate IsUnderPressure(e: Event) { e.underPressure }

  /** The under-pressure keys, set when some action was under pressure. */
  function UnderPressureOf(rows: seq<Event>): (r: Option<UnderPressureStats>)
    ensures r.Some? <==> Count(rows, IsUnderPressure) > 0
    ensures r.Some? ==>
      && r.value.actions == Count(rows, IsUnderPressure)
      && 0.0 < r.value.percentage <= 100.0
      && (r.value.percentage == 100.0 <==> r.value.actions == |rows|)
      && (r.value.passAccuracy.Some? <==> Count(Filter(rows, IsUnderPressure), OfType("Pass")) > 0)
      && (r.value.passAccuracy.Some? ==> 0.0 <= r.value.passAccuracy.value <= 1.0)
  {
    var pressed := Filter(rows, IsUnderPressure);
    if |pressed| == 0 then None
    else
      RatioBounds(|pressed|, |rows|);
      var passes := Filter(pressed, OfType("Pass"));
      var accuracy := if |passes| > 0 then Some(Ratio(Count(passes, NoOutcome), |passes|)) else None;
      RatioBounds(Count(passes, NoOutcome), |passes|);
      Some(UnderPressureStats(|pressed|, Ratio(|pressed|, |rows|) * 100.0, accuracy))
  }

  // ---------------------------------------------------------------------------
  // The whole dictionary

  predicate IsSetPiece(e: Event) {
    e.playPattern in {"From Free Kick", "From Corner", "From Throw In"}
  }

  /** `calculate_advanced_metrics` on the modelled keys. */
  function AdvancedMetricsOf(t: Table): (r: AdvancedStats)
    ensures r.playerName == PlayerName(t) && r.teamName == TeamName(t)
    ensures r.pressure.Some? ==> r.pressure.value.successful == 0 && r.pressure.value.successRate == 0.0
    ensures r.ballRecoveries + r.foulsCommitted + r.foulsWon <= |t.rows|
    ensures r.dribbles.Some? <==> Count(t.rows, OfType("Dribble")) > 0
    ensures r.dribbles.Some? ==> r.dribbles.value.successful <= r.dribbles.value.total == Count(t.rows, OfType("Dribble"))
    ensures r.defensiveActions <= |t.rows| && r.setPieceActions <= |t.rows|
  {
    var recoveries := Count(t.rows, OfTypes({"Ball Recovery", "Interception"}));
    var committed := Count(t.rows, OfType("Foul Committed"));
    var won := Count(t.rows, OfType("Foul Won"));
    CountThree(t.rows, OfTypes({"Ball Recovery", "Interception"}), OfType("Foul Committed"), OfType("Foul Won"),
               (e: Event) => e.typeName in {"Ball Recovery", "Interception", "Foul Committed", "Foul Won"});
    AdvancedStats(
      PlayerName(t),
      TeamName(t),
      LengthBucket(t, ShortPass),
      LengthBucket(t, MediumPass),
      LengthBucket(t, LongPass),
      ProgressionOf(t),
      PressureOf(t.rows),
      recoveries,
      TallyOf(Filter(t.rows, OfType("Dribble")), OutcomeIs("Complete")),
      committed,
      won,
      AerialDuelsOf(t),
      CrossesOf(t),
      FlaggedPasses(t, "pass_shot_assist", IsShotAssist),
      FlaggedPasses(t, "pass_goal_assist", IsGoalAssist),
      ShotZonesOf(t),
      PossessionOf(t),
      if "timestamp" in t.columns && "period" in t.columns then QuarterTable(t.rows, PeriodsOf(t)) else [],
      Count(t.rows, OfTypes({"Tackle", "Interception", "Clearance", "Block"})),
      UnderPressureOf(t.rows),
      Count(t.rows, IsSetPiece))
  }

  /** The dictionary filled section by section; the three loops run as methods. */
  method CalculateAdvancedMetrics(t: Table) returns (r: AdvancedStats)
    ensures r == AdvancedMetricsOf(t)
  {
    var progression: Option<Progression> := None;
    if "x" in t.columns && "y" in t.columns && "end_x" in t.columns && "end_y" in t.columns {
      var actions, gained := ProgressiveActions(t.rows);
      var avg := if |t.rows| > 0 then gained / |t.rows| as real else 0.0;
      progression := Some(Progression(actions, gained, avg));
    }
    var pressure := PressureEffectiveness(t.rows);
    var quarters := QuarterBuckets(t);
    r := AdvancedStats(
      PlayerName(t),
      TeamName(t),
      LengthBucket(t, ShortPass),
      LengthBucket(t, MediumPass),
      LengthBucket(t, LongPass),
      progression,
      pressure,
      Count(t.rows, OfTypes({"Ball Recovery", "Interception"})),
      TallyOf(Filter(t.rows, OfType("Dribble")), OutcomeIs("Complete")),
      Count(t.rows, OfType("Foul Committed")),
      Count(t.rows, OfType("Foul Won")),
      AerialDuelsOf(t),
      CrossesOf(t),
      FlaggedPasses(t, "pass_shot_assist", IsShotAssist),
      FlaggedPasses(t, "pass_goal_assist", IsGoalAssist),
      ShotZonesOf(t),
      PossessionOf(t),
      quarters,
      Count(t.rows, OfTypes({"Tackle", "Interception", "Clearance", "Block"})),
      UnderPressureOf(t.rows),
      Count(t.rows, IsSetPiece));
  }
}
