/** `calculate_player_statistics` and `calculate_period_statistics`: counters,
    ratios and playing time over one player's events. */
module PlayerStatistics {
  import opened Wrappers
  import opened Sequences
  import opened Grouping
  import opened Events
  import opened MatchClock

  /** The pass keys: total_passes, successful_passes, intercepted_passes, pass_accuracy. */
  datatype PassCounts = PassCounts(total: nat, successful: nat, intercepted: nat, accuracy: real)

  /** The shot keys: total_shots, shots_on_target (shots whose outcome is 'Goal'), shot_accuracy. */
  datatype ShotCounts = ShotCounts(total: nat, onTarget: nat, accuracy: real)

  /** The time keys: first_action_time, last_action_time (set only for two rows or more),
      total_playing_time_seconds, actions_per_minute. */
  datatype PlayingTime = PlayingTime(firstAction: Option<real>, lastAction: Option<real>, seconds: real, actionsPerMinute: real)

  /** The modelled keys of the `stats` dictionary; an absent key is None. */
  datatype BasicStats = BasicStats(
    playerName: Option<string>,
    teamName: Option<string>,
    passes: Option<PassCounts>,
    shots: Option<ShotCounts>,
    totalCarries: Option<nat>,
    playingTime: Option<PlayingTime>,
    totalPressures: Option<nat>,
    wasSubstituted: bool)

  /** Pass statistics, present only when the table holds a pass. A completed pass
      (no outcome) and an 'Incomplete' one are different rows, so the two counts
      never exceed the total. */
  function PassStatistics(rows: seq<Event>): (r: Option<PassCounts>)
    ensures r.Some? <==> Count(rows, OfType("Pass")) > 0
    ensures r.Some? ==>
      && r.value.total == Count(rows, OfType("Pass"))
      && r.value.successful == Count(Filter(rows, OfType("Pass")), NoOutcome)
      && r.value.intercepted == Count(Filter(rows, OfType("Pass")), OutcomeIs("Incomplete"))
      && r.value.successful + r.value.intercepted <= r.value.total
      && 0.0 <= r.value.accuracy <= 1.0
      && (r.value.accuracy == 1.0 <==> r.value.successful == r.value.total)
      && (r.value.accuracy == 0.0 <==> r.value.successful == 0)
  {
    var passes := Filter(rows, OfType("Pass"));
    if |passes| == 0 then None
    else
      var ok := Count(passes, NoOutcome);
      var lost := Count(passes, OutcomeIs("Incomplete"));
      CountDisjoint(passes, NoOutcome, OutcomeIs("Incomplete"));
      RatioBounds(ok, |passes|);
      Some(PassCounts(|passes|, ok, lost, Ratio(ok, |passes|)))
  }

  /** Shot statistics, present only when the table holds a shot; only a 'Goal' counts as on target. */
  function ShotStatistics(rows: seq<Event>): (r: Option<ShotCounts>)
    ensures r.Some? <==> Count(rows, OfType("Shot")) > 0
    ensures r.Some? ==>
      && r.value.total == Count(rows, OfType("Shot"))
      && r.value.onTarget == Count(Filter(rows, OfType("Shot")), OutcomeIs("Goal"))
      && r.value.onTarget <= r.value.total
      && 0.0 <= r.value.accuracy <= 1.0
      && (r.value.accuracy == 1.0 <==> r.value.onTarget == r.value.total)
      && (r.value.accuracy == 0.0 <==> r.value.onTarget == 0)
  {
    var shots := Filter(rows, OfType("Shot"));
    if |shots| == 0 then None
    else
      var goals := Count(shots, OutcomeIs("Goal"));
      RatioBounds(goals, |shots|);
      Some(ShotCounts(|shots|, goals, Ratio(goals, |shots|)))
  }

  /** A counter key that is set only when the count is not zero (`if not events.empty`). */
  function NonZero(n: nat): (r: Option<nat>)
    ensures r.Some? <==> n > 0
    ensures r.Some? ==> r.value == n
  {
    if n > 0 then Some(n) else None
  }

  /** The match clock of a row, in seconds. */
  function ClockReading(e: Event): real {
    TimestampToSeconds(e.timestamp)
  }

  /** Playing time from the first to the last action, and the action rate. A
      single row (or none) gives 0 for both and no first/last action. */
  function PlayingTimeOf(rows: seq<Event>): (r: PlayingTime)
    ensures |rows| <= 1 ==> r == PlayingTime(None, None, 0.0, 0.0)
    ensures |rows| > 1 ==>
      && r.firstAction.Some? && r.lastAction.Some?
      && (forall i :: 0 <= i < |rows| ==> r.firstAction.value <= ClockReading(rows[i]) <= r.lastAction.value)
      && r.seconds == r.lastAction.value - r.firstAction.value
    ensures r.seconds >= 0.0 && r.actionsPerMinute >= 0.0
    ensures r.seconds > 0.0 ==> r.actionsPerMinute == ActionRate(|rows|, r.seconds)
    ensures r.actionsPerMinute > 0.0 <==> r.seconds > 0.0
  {
    var times := Keys(rows, ClockReading);
    assert |times| == |rows|;
    var r := TimeSpan(times);
    assert forall i :: 0 <= i < |rows| ==> times[i] == ClockReading(rows[i]);
    r
  }

  /** Actions per minute over a span given in seconds. */
  function ActionRate(actions: nat, seconds: real): real
    requires seconds > 0.0
  {
    actions as real / (seconds / 60.0)
  }

  /** The span from the earliest to the latest of the clock readings `times`. */
  function TimeSpan(times: seq<real>): (r: PlayingTime)
    ensures |times| <= 1 ==> r == PlayingTime(None, None, 0.0, 0.0)
    ensures |times| > 1 ==>
      && r.firstAction.Some? && r.lastAction.Some?
      && (forall i :: 0 <= i < |times| ==> r.firstAction.value <= times[i] <= r.lastAction.value)
      && r.seconds == r.lastAction.value - r.firstAction.value
    ensures r.seconds >= 0.0 && r.actionsPerMinute >= 0.0
    ensures r.seconds > 0.0 ==> r.actionsPerMinute == ActionRate(|times|, r.seconds)
    ensures r.actionsPerMinute > 0.0 <==> r.seconds > 0.0
  {
    if |times| > 1 then
      var first, last := Min(times), Max(times);
      var span := last - first;
      assert first <= times[0] <= last;
      var perMinute := if span > 0.0 then ActionRate(|times|, span) else 0.0;
      assert span > 0.0 ==> perMinute > 0.0 by {
        if span > 0.0 { PositiveRate(|times| as real, span / 60.0); }
      }
      PlayingTime(Some(first), Some(last), span, perMinute)
    else
      PlayingTime(None, None, 0.0, 0.0)
  }

  /** `calculate_player_statistics` on the modelled keys. */
  function CalculatePlayerStatistics(t: Table): (r: BasicStats)
    ensures r.playerName == PlayerName(t) && r.teamName == TeamName(t)
    ensures r.passes == PassStatistics(t.rows) && r.shots == ShotStatistics(t.rows)
    ensures r.totalCarries.Some? <==> exists i :: 0 <= i < |t.rows| && t.rows[i].typeName == "Carry"
    ensures r.totalPressures.Some? <==> exists i :: 0 <= i < |t.rows| && t.rows[i].typeName == "Pressure"
    ensures r.totalPressures.Some? ==> r.totalPressures.value == Count(t.rows, OfType("Pressure"))
    ensures r.wasSubstituted <==> exists i :: 0 <= i < |t.rows| && t.rows[i].typeName == "Substitution"
    ensures r.playingTime.Some? <==> "timestamp" in t.columns
    ensures r.playingTime.Some? ==> r.playingTime.value == PlayingTimeOf(t.rows)
  {
    SomeOfType(t.rows, "Carry");
    SomeOfType(t.rows, "Pressure");
    SomeOfType(t.rows, "Substitution");
    BasicStats(
      PlayerName(t),
      TeamName(t),
      PassStatistics(t.rows),
      ShotStatistics(t.rows),
      NonZero(Count(t.rows, OfType("Carry"))),
      if "timestamp" in t.columns then Some(PlayingTimeOf(t.rows)) else None,
      NonZero(Count(t.rows, OfType("Pressure"))),
      Count(t.rows, OfType("Substitution")) > 0)
  }

  /** The keys `calculate_period_statistics` adds to a period's statistics:
      period_duration_minutes (always 45), period_first_action_minute and
      period_last_action_minute (two rows or more), period_playing_time_minutes,
      period_actions_per_minute. */
  datatype PeriodTiming = PeriodTiming(
    durationMinutes: nat,
    firstActionMinute: Option<real>,
    lastActionMinute: Option<real>,
    playingMinutes: real,
    actionsPerMinute: real)

  /** The entry `period_<p>` of the period statistics. */
  datatype PeriodEntry = PeriodEntry(period: int, stats: BasicStats, timing: Option<PeriodTiming>)

  datatype PeriodStats = PeriodStats(playerName: Option<string>, teamName: Option<string>, periods: seq<PeriodEntry>)

  /** The clock of a row relative to the start of its period, in seconds. */
  function PeriodClockReading(e: Event): real {
    PeriodTimestampToSeconds(e.timestamp)
  }

  /** The time keys of one period, in minutes of the period clock. */
  function PeriodTimingOf(rows: seq<Event>): (r: PeriodTiming)
    ensures r.durationMinutes == 45
    ensures |rows| <= 1 ==> r == PeriodTiming(45, None, None, 0.0, 0.0)
    ensures |rows| > 1 ==>
      && r.firstActionMinute.Some? && r.lastActionMinute.Some?
      && (forall i :: 0 <= i < |rows| ==>
            r.firstActionMinute.value * 60.0 <= PeriodClockReading(rows[i]) <= r.lastActionMinute.value * 60.0)
      && r.playingMinutes == r.lastActionMinute.value - r.firstActionMinute.value
    ensures r.playingMinutes >= 0.0 && r.actionsPerMinute >= 0.0
    ensures r.playingMinutes > 0.0 ==> r.actionsPerMinute == |rows| as real / r.playingMinutes
    ensures r.actionsPerMinute > 0.0 <==> r.playingMinutes > 0.0
  {
    if |rows| > 1 then
      var times := Keys(rows, PeriodClockReading);
      var first, last := Min(times), Max(times);
      var minutes := (last - first) / 60.0;
      assert times[0] == PeriodClockReading(rows[0]);
      var perMinute := if minutes > 0.0 then |rows| as real / minutes else 0.0;
      assert minutes > 0.0 ==> perMinute > 0.0 by {
        if minutes > 0.0 { PositiveRate(|rows| as real, minutes); }
      }
      PeriodTiming(45, Some(first / 60.0), Some(last / 60.0), minutes, perMinute)
    else
      PeriodTiming(45, None, None, 0.0, 0.0)
  }

  /** The statistics of period `p`: everything `calculate_player_statistics` gives for
      the rows of that period, plus the period clock when the table has timestamps. */
  function PeriodEntryOf(t: Table, p: int): PeriodEntry {
    var inPeriod := Select(t, InPeriod(p));
    PeriodEntry(
      p,
      CalculatePlayerStatistics(inPeriod),
      if "timestamp" in inPeriod.columns && |inPeriod.rows| > 0 then Some(PeriodTimingOf(inPeriod.rows)) else None)
  }

  /** The periods of a table in order of first appearance (`df['period'].unique()`). */
  function PeriodsOf(t: Table): seq<int> {
    Distinct(Keys(t.rows, PeriodOf))
  }

  /** `calculate_period_statistics`: one entry per distinct period, in order of
      first appearance, each computed from exactly that period's rows; no entry at
      all when the table has no period column. */
  method CalculatePeriodStatistics(t: Table) returns (r: PeriodStats)
    ensures r.playerName == PlayerName(t) && r.teamName == TeamName(t)
    ensures "period" !in t.columns ==> r.periods == []
    ensures "period" in t.columns ==> r.periods == PeriodEntries(t, PeriodsOf(t))
  {
    r := PeriodStats(PlayerName(t), TeamName(t), []);
    if "period" !in t.columns {
      return;
    }
    var entries := PeriodEntriesFor(t, PeriodsOf(t));
    r := r.(periods := entries);
  }

  /** The loop of `calculate_period_statistics`: one entry per period of `periods`, in that order. */
  method PeriodEntriesFor(t: Table, periods: seq<int>) returns (entries: seq<PeriodEntry>)
    ensures entries == PeriodEntries(t, periods)
  {
    entries := [];
    for i := 0 to |periods|
      invariant entries == PeriodEntries(t, periods[..i])
    {
      PeriodEntriesSnoc(t, periods, i);
      entries := entries + [PeriodEntryOf(t, periods[i])];
    }
    assert periods[..|periods|] == periods;
  }

  lemma PeriodEntriesSnoc(t: Table, ps: seq<int>, i: int)
    requires 0 <= i < |ps|
    ensures PeriodEntries(t, ps[..i + 1]) == PeriodEntries(t, ps[..i]) + [PeriodEntryOf(t, ps[i])]
  {
    assert ps[..i + 1][..i] == ps[..i];
  }

  /** The entries of the periods `ps`, in the order of `ps`. */
  function PeriodEntries(t: Table, ps: seq<int>): (r: seq<PeriodEntry>)
    ensures |r| == |ps|
  {
    if |ps| == 0 then [] else PeriodEntries(t, ps[..|ps| - 1]) + [PeriodEntryOf(t, ps[|ps| - 1])]
  }

  /** The i-th entry describes the i-th period: one entry per period, in order. */
  lemma {:induction false} PeriodEntriesAt(t: Table, ps: seq<int>, i: int)
    requires 0 <= i < |ps|
    ensures PeriodEntries(t, ps)[i] == PeriodEntryOf(t, ps[i])
    ensures PeriodEntries(t, ps)[i].period == ps[i]
  {
    if i < |ps| - 1 {
      PeriodEntriesAt(t, ps[..|ps| - 1], i);
    }
  }

  /** Every row falls in exactly one period entry: the periods' row counts add up
      to the length of the table. */
  lemma PeriodsPartitionRows(t: Table)
    ensures GroupSizes(t.rows, PeriodOf, PeriodsOf(t)) == |t.rows|
  {
    GroupSizesCoverInput(t.rows, PeriodOf);
  }

  /** Each row's period has an entry, and the entries' periods are pairwise different. */
  lemma PeriodEntriesAreDistinct(t: Table)
    ensures forall i :: 0 <= i < |t.rows| ==> t.rows[i].period in PeriodsOf(t)
    ensures forall i, j :: 0 <= i < j < |PeriodsOf(t)| ==> PeriodsOf(t)[i] != PeriodsOf(t)[j]
  {
    forall i | 0 <= i < |t.rows| ensures t.rows[i].period in PeriodsOf(t) {
      KeyOfMember(t.rows, PeriodOf, t.rows[i]);
    }
  }
}
