/** The events table the statistics read: one row per StatsBomb event of one
    player, restricted to the columns the statistics use. */
module Events {
  import opened Wrappers
  import opened Sequences
  import opened Grouping

  /** One row. A missing value (NaN) of an optional column is None; a boolean
      flag column reads as false where it is missing. */
  datatype Event = Event(
    player: string,
    team: string,
    typeName: string,
    outcome: Option<string>,
    x: Option<real>,
    y: Option<real>,
    endX: Option<real>,
    endY: Option<real>,
    passLength: Option<real>,
    passCross: bool,
    shotAssist: bool,
    goalAssist: bool,
    duelType: Option<string>,
    timestamp: string,
    period: int,
    possession: Option<int>,
    underPressure: bool,
    playPattern: string)

  /** A table: its rows, and the names of the columns whose presence the code
      tests with `'name' in df.columns`. */
  datatype Table = Table(rows: seq<Event>, columns: set<string>)

  /** The mask `df['type_name'] == name`. */
  function OfType(name: string): Event -> bool {
    (e: Event) => e.typeName == name
  }

  /** Some row has type `name` exactly when the selection of that type is non-empty. */
  lemma SomeOfType(rows: seq<Event>, name: string)
    ensures Count(rows, OfType(name)) > 0 <==> exists i :: 0 <= i < |rows| && rows[i].typeName == name
  {
    CountPositive(rows, OfType(name));
  }

  /** The mask `df['type_name'].isin(names)`. */
  function OfTypes(names: set<string>): Event -> bool {
    (e: Event) => e.typeName in names
  }

  /** The mask `df['outcome_name'] == o`. */
  function OutcomeIs(o: string): Event -> bool {
    (e: Event) => e.outcome == Some(o)
  }

  /** The mask `df['outcome_name'].isna()`: StatsBomb leaves the outcome of a completed pass empty. */
  predicate NoOutcome(e: Event) {
    e.outcome.None?
  }

  /** The mask `df['period'] == p`. */
  function InPeriod(p: int): Event -> bool {
    WithKey(PeriodOf, p)
  }

  function PeriodOf(e: Event): int {
    e.period
  }

  /** `df[mask]`: the selected rows keep the table's columns. */
  function Select(t: Table, mask: Event -> bool): Table {
    Table(Filter(t.rows, mask), t.columns)
  }

  /** `df['player_name'].iloc[0]` where the column exists and the table is not empty. */
  function PlayerName(t: Table): Option<string> {
    if "player_name" in t.columns && |t.rows| > 0 then Some(t.rows[0].player) else None
  }

  /** `df['team_name'].iloc[0]` where the column exists and the table is not empty. */
  function TeamName(t: Table): Option<string> {
    if "team_name" in t.columns && |t.rows| > 0 then Some(t.rows[0].team) else None
  }

  /** `success / total`, a Python float division guarded by `if total > 0 else 0`. */
  function Ratio(success: nat, total: nat): real {
    if total > 0 then success as real / total as real else 0.0
  }

  /** A positive count over a positive span is a positive rate. */
  lemma PositiveRate(count: real, span: real)
    requires count > 0.0 && span > 0.0
    ensures count / span > 0.0
  {
  }

  /** Comparing a quotient with a bound is comparing the dividend with the bound
      times the (positive) divisor. */
  lemma DivisionThreshold(a: real, n: real, c: real)
    requires n > 0.0
    ensures a / n > c <==> a > c * n
    ensures a / n < c <==> a < c * n
  {
    var q := a / n;
    assert q * n == a;
    assert (q - c) * n == a - c * n;
    if q > c { PositiveProduct(q - c, n); }
    if q < c { PositiveProduct(c - q, n); }
  }

  lemma PositiveProduct(x: real, y: real)
    requires x > 0.0 && y > 0.0
    ensures x * y > 0.0
  {
  }

  lemma RatioBounds(success: nat, total: nat)
    requires success <= total
    ensures 0.0 <= Ratio(success, total) <= 1.0
    ensures total > 0 ==> (Ratio(success, total) == 1.0 <==> success == total)
    ensures Ratio(success, total) == 0.0 <==> success == 0
    ensures Ratio(success, total) * total as real == success as real
  {
    if total > 0 {
      var a, n := success as real, total as real;
      DivisionThreshold(a, n, 1.0);
      DivisionThreshold(a, n, 0.0);
      assert a / n * n == a;
    }
  }
}

