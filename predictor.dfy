/** The bookkeeping of `PlayerPerformancePredictor` (src/ml_predictor.py): the
    stored training state, the guards and the column alignment of a prediction,
    the weighted performance score, the age curve, the confidence ratio and the
    ordering of the feature importances. The fitted models themselves (and what
    they predict) are inputs. */
module Predictor {
  import opened Wrappers
  import opened Sequences
  import opened Decimal
  import opened Events
  import opened Grouping

  // ---------------------------------------------------------------------------
  // Performance score

  /** The defensive event types of the score. */
  const DefensiveTypes: set<string> := {"Tackle", "Interception", "Clearance"}

  /** `len(successes) / len(group)`, 0 for an empty group (whose term the score skips). */
  function GroupRatio(group: seq<Event>, success: Event -> bool): real {
    Ratio(Count(group, success), |group|)
  }

  /** Pass completion, goals per shot, completed dribbles and the share of defensive
      actions among all rows, weighted 0.3, 0.4, 0.2 and 0.1. */
  function PerformanceScoreOf(rows: seq<Event>): real {
    GroupRatio(Filter(rows, OfType("Pass")), NoOutcome) * 0.3
    + GroupRatio(Filter(rows, OfType("Shot")), OutcomeIs("Goal")) * 0.4
    + GroupRatio(Filter(rows, OfType("Dribble")), OutcomeIs("Complete")) * 0.2
    + Ratio(Count(rows, OfTypes(DefensiveTypes)), |rows|) * 0.1
  }

  /** `_calculate_performance_score`: each term is added only when its group is not empty. */
  method CalculatePerformanceScore(rows: seq<Event>) returns (score: real)
    ensures score == PerformanceScoreOf(rows)
    ensures 0.0 <= score < 1.0
  {
    score := 0.0;
    var passEvents := Filter(rows, OfType("Pass"));
    if |passEvents| > 0 {
      score := score + GroupRatio(passEvents, NoOutcome) * 0.3;
    }
    assert score == GroupRatio(passEvents, NoOutcome) * 0.3;
    var shotEvents := Filter(rows, OfType("Shot"));
    ghost var sofar := score;
    if |shotEvents| > 0 {
      score := score + GroupRatio(shotEvents, OutcomeIs("Goal")) * 0.4;
    }
    assert score == sofar + GroupRatio(shotEvents, OutcomeIs("Goal")) * 0.4;
    var dribbleEvents := Filter(rows, OfType("Dribble"));
    sofar := score;
    if |dribbleEvents| > 0 {
      score := score + GroupRatio(dribbleEvents, OutcomeIs("Complete")) * 0.2;
    }
    assert score == sofar + GroupRatio(dribbleEvents, OutcomeIs("Complete")) * 0.2;
    var defensiveEvents := Filter(rows, OfTypes(DefensiveTypes));
    RatioBounds(|defensiveEvents|, |rows|);
    sofar := score;
    if |defensiveEvents| > 0 {
      score := score + Ratio(|defensiveEvents|, |rows|) * 0.1;
    }
    assert score == sofar + Ratio(|defensiveEvents|, |rows|) * 0.1;
    ScoreBelowOne(rows);
  }

  lemma GroupRatioBounds(group: seq<Event>, success: Event -> bool)
    ensures 0.0 <= GroupRatio(group, success) <= 1.0
  {
    RatioBounds(Count(group, success), |group|);
  }

  /** The score lies in [0, 1): the defensive share is 1 only when every row is
      defensive, and then there is no pass, shot or dribble to add to it. */
  lemma {:induction false} ScoreBelowOne(rows: seq<Event>)
    ensures 0.0 <= PerformanceScoreOf(rows) < 1.0
  {
    var passes, shots, dribbles := Filter(rows, OfType("Pass")), Filter(rows, OfType("Shot")), Filter(rows, OfType("Dribble"));
    GroupRatioBounds(passes, NoOutcome);
    GroupRatioBounds(shots, OutcomeIs("Goal"));
    GroupRatioBounds(dribbles, OutcomeIs("Complete"));
    var defensive := Count(rows, OfTypes(DefensiveTypes));
    RatioBounds(defensive, |rows|);
    if defensive == |rows| && |rows| > 0 {
      AllDefensive(rows);
      assert passes == [] && shots == [] && dribbles == [];
    }
  }

  /** When every row is defensive, no row is a pass, a shot or a dribble. */
  lemma AllDefensive(rows: seq<Event>)
    requires Count(rows, OfTypes(DefensiveTypes)) == |rows|
    ensures Filter(rows, OfType("Pass")) == [] && Filter(rows, OfType("Shot")) == [] && Filter(rows, OfType("Dribble")) == []
  {
    NotDefensive("Pass");
    NoneOfType(rows, "Pass");
    NotDefensive("Shot");
    NoneOfType(rows, "Shot");
    NotDefensive("Dribble");
    NoneOfType(rows, "Dribble");
  }

  /** A name of another length than the three defensive types is not one of them. */
  lemma NotDefensive(name: string)
    requires |name| != 6 && |name| != 9 && |name| != 12
    ensures name !in DefensiveTypes
  {
    assert |"Tackle"| == 6 && |"Clearance"| == 9 && |"Interception"| == 12;
  }

  lemma NoneOfType(rows: seq<Event>, name: string)
    requires name !in DefensiveTypes
    requires Count(rows, OfTypes(DefensiveTypes)) == |rows|
    ensures Filter(rows, OfType(name)) == []
  {
    forall e | e in rows ensures !(OfTypes(DefensiveTypes)(e) && OfType(name)(e)) {
    }
    CountDisjoint(rows, OfTypes(DefensiveTypes), OfType(name));
  }

  // ---------------------------------------------------------------------------
  // Age curve

  const PeakAge: real := 27.5

  /** The age factor before the random draw: +2% per year below the peak, -3% per
      year above it. */
  function AgeFactor(futureAge: int): real {
    if futureAge as real <= PeakAge then 1.0 + (PeakAge - futureAge as real) * 0.02
    else 1.0 - (futureAge as real - PeakAge) * 0.03
  }

  /** `max(0.1, min(1.5, f))` */
  function Clamp(f: real): (r: real)
    ensures 0.1 <= r <= 1.5
    ensures 0.1 <= f <= 1.5 ==> r == f
  {
    var upper := if f < 1.5 then f else 1.5;
    if upper > 0.1 then upper else 0.1
  }

  /** The age factor never grows as the player gets older: the curve peaks at 27.5. */
  lemma AgeFactorNonIncreasing(a: int, b: int)
    requires a <= b
    ensures AgeFactor(b) <= AgeFactor(a)
    ensures Clamp(AgeFactor(b)) <= Clamp(AgeFactor(a))
  {
  }

  /** Up to age 27 the factor is above 1; from 28 it is below 1. */
  lemma AgeFactorAroundPeak(futureAge: int)
    ensures AgeFactor(futureAge) > 1.0 <==> futureAge <= 27
    ensures AgeFactor(futureAge) < 1.0 <==> futureAge >= 28
  {
  }

  /** One entry of the predictions dictionary, keyed `year_<n>`. */
  datatype YearPrediction = YearPrediction(key: string, age: int, predictedPerformance: real, performanceFactor: real)

  function YearKey(year: nat): string {
    "year_" + Show(year)
  }

  lemma YearKeysDistinct(m: nat, n: nat)
    requires m != n
    ensures YearKey(m) != YearKey(n)
  {
    if YearKey(m) == YearKey(n) {
      assert Show(m) == YearKey(m)[5..];
      assert Show(n) == YearKey(n)[5..];
      ShowInjective(m, n);
    }
  }

  /** The entry of year n (from 1): keyed `year_<n>`, at age `age + n`, scaling the
      current performance by the clamped age factor times `draw(n)`. */
  function YearEntry(currentPerformance: real, age: int, year: int, draw: int -> real): (r: YearPrediction)
    ensures r.key == YearKey(if year >= 0 then year else 0) && r.age == age + year
    ensures 0.1 <= r.performanceFactor <= 1.5
  {
    var factor := Clamp(AgeFactor(age + year) * draw(year));
    YearPrediction(YearKey(if year >= 0 then year else 0), age + year, currentPerformance * factor, factor)
  }

  /** One entry per year ahead, in order. */
  predicate Projects(predictions: seq<YearPrediction>, currentPerformance: real, age: int, yearsAhead: int, draw: int -> real) {
    && |predictions| == (if yearsAhead > 0 then yearsAhead else 0)
    && forall k :: 0 <= k < |predictions| ==> predictions[k] == YearEntry(currentPerformance, age, k + 1, draw)
  }

  lemma EntryOfYear(currentPerformance: real, age: int, year: nat, draw: int -> real, factor: real)
    requires factor == Clamp(AgeFactor(age + year) * draw(year))
    ensures YearPrediction(YearKey(year), age + year, currentPerformance * factor, factor) == YearEntry(currentPerformance, age, year, draw)
  {
  }

  lemma ProjectsOneMore(predictions: seq<YearPrediction>, currentPerformance: real, age: int, n: nat, draw: int -> real)
    requires Projects(predictions, currentPerformance, age, n, draw)
    ensures Projects(predictions + [YearEntry(currentPerformance, age, n + 1, draw)], currentPerformance, age, n + 1, draw)
  {
  }

  /** `_predict_future_performance`: one entry per year ahead; `draw(year)` is the
      normal draw the code multiplies the factor by in that year. */
  method PredictFuturePerformance(currentPerformance: real, age: int, yearsAhead: int, draw: int -> real)
    returns (predictions: seq<YearPrediction>)
    ensures Projects(predictions, currentPerformance, age, yearsAhead, draw)
  {
    var years := if yearsAhead > 0 then yearsAhead else 0;
    predictions := [];
    for year := 1 to years + 1
      invariant Projects(predictions, currentPerformance, age, year - 1, draw)
    {
      var futureAge := age + year;
      var factor := AgeFactor(futureAge);
      factor := factor * draw(year);
      factor := Clamp(factor);
      var entry := YearPrediction(YearKey(year), futureAge, currentPerformance * factor, factor);
      EntryOfYear(currentPerformance, age, year, draw, factor);
      ProjectsOneMore(predictions, currentPerformance, age, year - 1, draw);
      predictions := predictions + [entry];
    }
  }

  /** Each prediction scales the current performance by a factor in [0.1, 1.5], the
      future ages count up from the player's age, and no key repeats. */
  lemma ProjectionProperties(predictions: seq<YearPrediction>, currentPerformance: real, age: int, yearsAhead: int, draw: int -> real)
    requires Projects(predictions, currentPerformance, age, yearsAhead, draw)
    ensures forall k :: 0 <= k < |predictions| ==>
      && 0.1 <= predictions[k].performanceFactor <= 1.5
      && predictions[k].predictedPerformance == currentPerformance * predictions[k].performanceFactor
      && predictions[k].age == age + k + 1
    ensures forall i, j :: 0 <= i < j < |predictions| ==> predictions[i].key != predictions[j].key
  {
    forall i, j | 0 <= i < j < |predictions| ensures predictions[i].key != predictions[j].key {
      YearKeysDistinct(i + 1, j + 1);
    }
  }

  /** Without a draw that moves it, a player past the peak is predicted to decline. */
  lemma DeclineAfterPeak(predictions: seq<YearPrediction>, currentPerformance: real, age: int, yearsAhead: int, draw: int -> real, k: nat)
    requires Projects(predictions, currentPerformance, age, yearsAhead, draw)
    requires k < |predictions| && age + k + 1 >= 28 && draw(k + 1) == 1.0
    ensures predictions[k].performanceFactor < 1.0
  {
    AgeFactorAroundPeak(age + k + 1);
  }

  // ---------------------------------------------------------------------------
  // Feature frames

  /** A numeric data frame: its columns in order, its number of rows and each
      column's values. */
  datatype Frame = Frame(columns: seq<string>, height: nat, cells: map<string, seq<real>>)

  ghost predicate WellFormed(f: Frame) {
    && (forall c :: c in f.cells <==> c in f.columns)
    && (forall c :: c in f.cells ==> |f.cells[c]| == f.height)
  }

  /** `DataFrame.empty`: no columns or no rows. */
  predicate Empty(f: Frame) {
    |f.columns| == 0 || f.height == 0
  }

  function Zeros(n: nat): (r: seq<real>)
    ensures |r| == n && forall i :: 0 <= i < n ==> r[i] == 0.0
  {
    seq(n, _ => 0.0)
  }

  /** `features[col] = 0`: a new last column of zeros. */
  function AddZeroColumn(f: Frame, c: string): Frame {
    Frame(f.columns + [c], f.height, f.cells[c := Zeros(f.height)])
  }

  /** The frame after the padding loop has visited the names `cols`. */
  function Padded(f: Frame, cols: seq<string>): Frame {
    if |cols| == 0 then f
    else
      var p := Padded(f, cols[..|cols| - 1]);
      var c := cols[|cols| - 1];
      if c in p.cells then p else AddZeroColumn(p, c)
  }

  /** Padding keeps the frame well formed and its height, adds every name of `cols`,
      keeps the existing columns (in their places, with their values) and fills each
      added column with zeros. */
  lemma {:induction false} PaddedProperties(f: Frame, cols: seq<string>)
    requires WellFormed(f)
    ensures WellFormed(Padded(f, cols)) && Padded(f, cols).height == f.height
    ensures forall c :: c in cols ==> c in Padded(f, cols).cells
    ensures |Padded(f, cols).columns| >= |f.columns| && Padded(f, cols).columns[..|f.columns|] == f.columns
    ensures forall c :: c in f.cells ==> Padded(f, cols).cells[c] == f.cells[c]
    ensures forall c :: c in Padded(f, cols).cells && c !in f.cells ==> c in cols && Padded(f, cols).cells[c] == Zeros(f.height)
    decreases |cols|
  {
    if |cols| > 0 {
      var cols' := cols[..|cols| - 1];
      PaddedProperties(f, cols');
      var p := Padded(f, cols');
      assert forall c :: c in cols ==> c in cols' || c == cols[|cols| - 1];
      if cols[|cols| - 1] !in p.cells {
        assert (p.columns + [cols[|cols| - 1]])[..|f.columns|] == p.columns[..|f.columns|];
      }
    }
  }

  /** The padding loop of `predict_player_potential`. */
  method AlignColumns(features: Frame, featureColumns: seq<string>) returns (padded: Frame)
    ensures padded == Padded(features, featureColumns)
  {
    padded := features;
    for i := 0 to |featureColumns|
      invariant padded == Padded(features, featureColumns[..i])
    {
      var col := featureColumns[i];
      TakeOneMore(featureColumns, i);
      assert featureColumns[..i + 1][..i] == featureColumns[..i];
      if col !in padded.cells {
        padded := AddZeroColumn(padded, col);
      }
    }
    assert featureColumns[..|featureColumns|] == featureColumns;
  }

  /** `features[cols]`: exactly the columns `cols`, in that order. */
  function SelectColumns(f: Frame, cols: seq<string>): (r: Frame)
    requires forall c :: c in cols ==> c in f.cells
    ensures r.columns == cols && r.height == f.height
    ensures forall c :: c in cols ==> c in r.cells && r.cells[c] == f.cells[c]
    ensures WellFormed(f) ==> WellFormed(r)
  {
    Frame(cols, f.height, map c | c in cols :: f.cells[c])
  }

  // ---------------------------------------------------------------------------
  // Prediction confidence

  predicate IsNonZero(x: real) { x != 0.0 }

  /** `(features != 0).sum().sum()` over the columns `cols`. */
  function NonZeroCells(f: Frame, cols: seq<string>): nat
    requires forall c :: c in cols ==> c in f.cells
  {
    if |cols| == 0 then 0
    else NonZeroCells(f, cols[..|cols| - 1]) + Count(f.cells[cols[|cols| - 1]], IsNonZero)
  }

  lemma {:induction false} NonZeroCellsBound(f: Frame, cols: seq<string>)
    requires WellFormed(f) && forall c :: c in cols ==> c in f.cells
    ensures NonZeroCells(f, cols) <= |cols| * f.height
    decreases |cols|
  {
    if |cols| > 0 {
      NonZeroCellsBound(f, cols[..|cols| - 1]);
      assert (|cols| - 1) * f.height + f.height == |cols| * f.height;
    }
  }

  /** The number of cells of the frame. */
  function CellCount(f: Frame): nat {
    |f.columns| * f.height
  }

  /** `min(1.0, 1.2 * nonzero / size)`, 0 for a frame without cells. */
  function PredictionConfidence(f: Frame): (r: real)
    requires WellFormed(f)
    ensures 0.0 <= r <= 1.0
    ensures r == 0.0 <==> NonZeroCells(f, f.columns) == 0
    ensures CellCount(f) > 0 ==> (r == 1.0 <==> 6 * NonZeroCells(f, f.columns) >= 5 * CellCount(f))
  {
    NonZeroCellsBound(f, f.columns);
    Confidence(NonZeroCells(f, f.columns), CellCount(f))
  }

  /** `min(1.0, 1.2 * nonZero / total)` with the share guarded by `total > 0`. */
  function Confidence(nonZero: nat, total: nat): (r: real)
    requires nonZero <= total
    ensures 0.0 <= r <= 1.0
    ensures r == 0.0 <==> nonZero == 0
    ensures total > 0 ==> (r == 1.0 <==> 6 * nonZero >= 5 * total)
  {
    var confidence := Ratio(nonZero, total);
    RatioBounds(nonZero, total);
    assert total > 0 ==> (confidence * 1.2 < 1.0 <==> 6 * nonZero < 5 * total) by {
      if total > 0 { ConfidenceThreshold(nonZero, total); }
    }
    if confidence * 1.2 < 1.0 then confidence * 1.2 else 1.0
  }

  /** 1.2 times the share stays below 1 exactly when fewer than five sixths of the cells are non-zero. */
  lemma ConfidenceThreshold(nonZero: nat, total: nat)
    requires total > 0
    ensures Ratio(nonZero, total) * 1.2 < 1.0 <==> 6 * nonZero < 5 * total
  {
    DivisionThreshold(nonZero as real, total as real, 5.0 / 6.0);
  }

  // ---------------------------------------------------------------------------
  // Feature importance

  type Importance = (string, real)

  /** Python's `zip`: pairs up to the shorter input. */
  function Zip(names: seq<string>, values: seq<real>): (r: seq<Importance>)
    ensures |r| == if |names| < |values| then |names| else |values|
    ensures forall i :: 0 <= i < |r| ==> r[i] == (names[i], values[i])
  {
    if |names| == 0 || |values| == 0 then [] else [(names[0], values[0])] + Zip(names[1..], values[1..])
  }

  function KeySet(d: seq<Importance>): set<string> {
    set p | p in d :: p.0
  }

  predicate DistinctKeys(d: seq<Importance>) {
    forall i, j :: 0 <= i < j < |d| ==> d[i].0 != d[j].0
  }

  /** `d[key] = value` on the items of a dict: a present key keeps its place and
      takes the new value; a new key goes last. */
  function Put(d: seq<Importance>, p: Importance): (r: seq<Importance>)
    ensures KeySet(r) == KeySet(d) + {p.0}
    ensures p.0 !in KeySet(d) ==> r == d + [p]
  {
    if |d| == 0 then [p]
    else
      SplitFirst(d);
      KeySetCons(d[0], d[1..]);
      if d[0].0 == p.0 then
        KeySetCons(p, d[1..]);
        [p] + d[1..]
      else
        var rest := Put(d[1..], p);
        KeySetCons(d[0], rest);
        [d[0]] + rest
  }

  /** A dict never holds a key twice. */
  lemma {:induction false} PutDistinct(d: seq<Importance>, p: Importance)
    requires DistinctKeys(d)
    ensures DistinctKeys(Put(d, p))
    decreases |d|
  {
    if |d| > 0 && d[0].0 != p.0 {
      var rest := Put(d[1..], p);
      PutDistinct(d[1..], p);
      forall y | y in d[1..] ensures y.0 != d[0].0 {
        var i :| 0 <= i < |d[1..]| && d[1..][i] == y;
        assert d[i + 1] == y;
      }
      forall k | 0 <= k < |rest| ensures rest[k].0 != d[0].0 {
        assert rest[k].0 in KeySet(rest);
      }
    }
  }

  lemma KeySetCons(x: Importance, s: seq<Importance>)
    ensures KeySet([x] + s) == {x.0} + KeySet(s)
  {
    assert forall y :: y in [x] + s <==> y == x || y in s;
  }

  /** The items of `dict(pairs)`, in insertion order. */
  function DictItems(pairs: seq<Importance>): (r: seq<Importance>)
    ensures DistinctKeys(r)
    ensures KeySet(r) == KeySet(pairs)
  {
    if |pairs| == 0 then []
    else
      var prefix := pairs[..|pairs| - 1];
      SplitLast(pairs);
      assert KeySet(pairs) == KeySet(prefix) + {pairs[|pairs| - 1].0};
      PutDistinct(DictItems(prefix), pairs[|pairs| - 1]);
      Put(DictItems(prefix), pairs[|pairs| - 1])
  }

  /** Pairs whose keys already differ make a dict with the same items in the same order. */
  lemma {:induction false} DictItemsOfDistinct(pairs: seq<Importance>)
    requires DistinctKeys(pairs)
    ensures DictItems(pairs) == pairs
    decreases |pairs|
  {
    if |pairs| > 0 {
      var prefix, p := pairs[..|pairs| - 1], pairs[|pairs| - 1];
      assert DistinctKeys(prefix);
      DictItemsOfDistinct(prefix);
      assert p.0 !in KeySet(prefix);
      SplitLast(pairs);
    }
  }

  predicate NonIncreasing(d: seq<Importance>) {
    forall i, j :: 0 <= i < j < |d| ==> d[i].1 >= d[j].1
  }

  /** Inserting behind every item at least as important keeps equal importances in
      arrival order. */
  function Insert(x: Importance, t: seq<Importance>): (r: seq<Importance>)
    ensures multiset(r) == multiset(t) + multiset{x}
  {
    if |t| == 0 then [x]
    else if t[0].1 >= x.1 then
      assert t == [t[0]] + t[1..];
      [t[0]] + Insert(x, t[1..])
    else
      [x] + t
  }

  lemma {:induction false} InsertSorted(x: Importance, t: seq<Importance>)
    requires NonIncreasing(t)
    ensures NonIncreasing(Insert(x, t))
    decreases |t|
  {
    if |t| > 0 && t[0].1 >= x.1 {
      var rest := Insert(x, t[1..]);
      InsertSorted(x, t[1..]);
      forall y | y in rest ensures t[0].1 >= y.1 {
        assert y in multiset(rest);
        if y != x {
          assert y in multiset(t[1..]);
        }
      }
    }
  }

  /** `sorted(items, key=lambda x: x[1], reverse=True)`, which is stable. */
  function SortByImportance(s: seq<Importance>): (r: seq<Importance>)
    ensures multiset(r) == multiset(s)
    ensures NonIncreasing(r)
  {
    if |s| == 0 then []
    else
      SplitLast(s);
      InsertSorted(s[|s| - 1], SortByImportance(s[..|s| - 1]));
      Insert(s[|s| - 1], SortByImportance(s[..|s| - 1]))
  }

  function WithImportance(v: real): Importance -> bool {
    (p: Importance) => p.1 == v
  }

  lemma {:induction false} InsertStable(x: Importance, t: seq<Importance>, v: real)
    requires NonIncreasing(t)
    ensures Filter(Insert(x, t), WithImportance(v)) == Filter(t, WithImportance(v)) + (if x.1 == v then [x] else [])
    decreases |t|
  {
    if |t| == 0 {
      FilterCons(x, [], WithImportance(v));
    } else if t[0].1 >= x.1 {
      InsertStable(x, t[1..], v);
      InsertBehind(x, t, v);
    } else {
      InsertInFront(x, t, v);
    }
  }

  /** The inductive step of the stability: `x` goes behind the first item. */
  lemma InsertBehind(x: Importance, t: seq<Importance>, v: real)
    requires |t| > 0 && t[0].1 >= x.1
    requires Filter(Insert(x, t[1..]), WithImportance(v)) == Filter(t[1..], WithImportance(v)) + (if x.1 == v then [x] else [])
    ensures Filter(Insert(x, t), WithImportance(v)) == Filter(t, WithImportance(v)) + (if x.1 == v then [x] else [])
  {
    var p := WithImportance(v);
    var head, tail, last := (if p(t[0]) then [t[0]] else []), t[1..], (if x.1 == v then [x] else []);
    var rest := Insert(x, tail);
    assert Insert(x, t) == [t[0]] + rest;
    FilterCons(t[0], rest, p);
    SplitFirst(t);
    FilterCons(t[0], tail, p);
    ConcatAssociates(head, Filter(tail, p), last);
  }

  /** `x` goes in front: when it has importance `v`, nothing behind it has. */
  lemma InsertInFront(x: Importance, t: seq<Importance>, v: real)
    requires NonIncreasing(t) && |t| > 0 && t[0].1 < x.1
    ensures Filter(Insert(x, t), WithImportance(v)) == Filter(t, WithImportance(v)) + (if x.1 == v then [x] else [])
  {
    var p := WithImportance(v);
    FilterCons(x, t, p);
    if x.1 == v {
      AllBelow(t, v);
      CountNone(t, p);
    }
  }

  /** Behind a first item less important than `v`, no item of a sorted sequence has importance `v`. */
  lemma AllBelow(t: seq<Importance>, v: real)
    requires NonIncreasing(t) && |t| > 0 && t[0].1 < v
    ensures forall y :: y in t ==> !WithImportance(v)(y)
  {
    forall y | y in t ensures y.1 != v {
      var i :| 0 <= i < |t| && t[i] == y;
    }
  }

  /** The sort is stable: the items of each importance come out in the order they
      went in. */
  lemma {:induction false} SortStable(s: seq<Importance>, v: real)
    ensures Filter(SortByImportance(s), WithImportance(v)) == Filter(s, WithImportance(v))
    decreases |s|
  {
    if |s| > 0 {
      var prefix, x := s[..|s| - 1], s[|s| - 1];
      SortStable(prefix, v);
      InsertStable(x, SortByImportance(prefix), v);
      FilterSnoc(prefix, x, WithImportance(v));
      SplitLast(s);
    }
  }

  /** What the fitted state records of a model: its `feature_importances_`, when it has one. */
  datatype FittedModel = FittedModel(featureImportances: Option<seq<real>>)

  /** `_get_feature_importance`: the items of `dict(zip(columns, importances))`,
      most important first; {} for a model without importances. */
  function FeatureImportance(columns: seq<string>, model: FittedModel): (r: seq<Importance>)
    ensures model.featureImportances.None? ==> r == []
    ensures NonIncreasing(r)
    ensures model.featureImportances.Some? ==>
      multiset(r) == multiset(DictItems(Zip(columns, model.featureImportances.value)))
  {
    match model.featureImportances
    case None => []
    case Some(importances) => SortByImportance(DictItems(Zip(columns, importances)))
  }

  /** With distinct column names, the importances are a reordering of the zipped pairs:
      one per column up to the shorter input, and equal importances in column order. */
  lemma FeatureImportanceOfDistinctColumns(columns: seq<string>, importances: seq<real>, v: real)
    requires forall i, j :: 0 <= i < j < |columns| ==> columns[i] != columns[j]
    ensures multiset(FeatureImportance(columns, FittedModel(Some(importances)))) == multiset(Zip(columns, importances))
    ensures Filter(FeatureImportance(columns, FittedModel(Some(importances))), WithImportance(v)) == Filter(Zip(columns, importances), WithImportance(v))
  {
    var z := Zip(columns, importances);
    assert DistinctKeys(z);
    DictItemsOfDistinct(z);
    SortStable(z, v);
  }

  // ---------------------------------------------------------------------------
  // Training

  /** One record of the training data: its career events and what `prepare_features`
      makes of them. */
  datatype TrainingRecord = TrainingRecord(career: seq<Event>, features: Frame)

  /** `prepare_features` as written. Its frame starts empty, so every column it
      assigns is an empty Series, and the `if` on a Series comparison that computes
      `pass_accuracy` raises (a Series has no truth value); the handler returns an
      empty frame. The position encoder it would store is never reached. */
  function PrepareFeatures(career: seq<Event>): (r: Frame)
    ensures WellFormed(r) && Empty(r)
  {
    Frame([], 0, map[])
  }

  /** Records whose features are what `prepare_features` returns give no sample,
      so training on them always ends in "Insufficient training data". */
  lemma PreparedRecordsNeverTrain(records: seq<TrainingRecord>)
    requires forall i :: 0 <= i < |records| ==> records[i].features == PrepareFeatures(records[i].career)
    ensures Count(records, Usable) == 0
  {
    forall x | x in records
      ensures !Usable(x)
    {
      var i :| 0 <= i < |records| && records[i] == x;
    }
    CountNone(records, Usable);
  }

  /** A record contributes a sample when its career and its features are not empty. */
  predicate Usable(r: TrainingRecord) {
    |r.career| > 0 && !Empty(r.features)
  }

  /** `features.iloc[0].to_dict()` */
  function FirstRow(f: Frame): map<string, real> {
    map c | c in f.cells && |f.cells[c]| > 0 :: f.cells[c][0]
  }

  /** What the collection loop gathers: the column names of the samples (with
      repeats, in order), one row and one target per sample. */
  datatype TrainingSet = TrainingSet(columnNames: seq<string>, rows: seq<map<string, real>>, targets: seq<real>)

  function Gathered(records: seq<TrainingRecord>): TrainingSet {
    if |records| == 0 then TrainingSet([], [], [])
    else
      var t := Gathered(records[..|records| - 1]);
      var r := records[|records| - 1];
      if Usable(r) then TrainingSet(t.columnNames + r.features.columns, t.rows + [FirstRow(r.features)], t.targets + [PerformanceScoreOf(r.career)])
      else t
  }

  /** One sample per usable record, in order: its first feature row, and as target the
      performance score of its career. */
  lemma {:induction false} GatheredSamples(records: seq<TrainingRecord>)
    ensures |Gathered(records).rows| == |Gathered(records).targets| == Count(records, Usable)
    ensures forall k :: 0 <= k < |Gathered(records).targets| ==>
      && Gathered(records).rows[k] == FirstRow(Filter(records, Usable)[k].features)
      && Gathered(records).targets[k] == PerformanceScoreOf(Filter(records, Usable)[k].career)
    decreases |records|
  {
    if |records| > 0 {
      var prefix, r := records[..|records| - 1], records[|records| - 1];
      GatheredSamples(prefix);
      SplitLast(records);
      FilterSnoc(prefix, r, Usable);
    }
  }

  /** Every training target lies in [0, 1). */
  lemma TargetsBelowOne(records: seq<TrainingRecord>)
    ensures forall k :: 0 <= k < |Gathered(records).targets| ==> 0.0 <= Gathered(records).targets[k] < 1.0
  {
    GatheredSamples(records);
    var f := Filter(records, Usable);
    forall k | 0 <= k < |Gathered(records).targets| ensures 0.0 <= Gathered(records).targets[k] < 1.0 {
      ScoreBelowOne(f[k].career);
    }
  }

  /** The loop of `train_performance_model` over the training records. */
  method CollectTrainingData(records: seq<TrainingRecord>) returns (collected: TrainingSet)
    ensures collected == Gathered(records)
  {
    var columnNames, xList, yList := [], [], [];
    for i := 0 to |records|
      invariant TrainingSet(columnNames, xList, yList) == Gathered(records[..i])
    {
      var record := records[i];
      TakeOneMore(records, i);
      assert records[..i + 1][..i] == records[..i];
      if |record.career| > 0 {
        var features := record.features;
        if !Empty(features) {
          columnNames := columnNames + features.columns;
          xList := xList + [FirstRow(features)];
          yList := yList + [PerformanceScoreOf(record.career)];
        }
      }
    }
    assert records[..|records|] == records;
    collected := TrainingSet(columnNames, xList, yList);
  }

  /** The test-set r2 score of one fitted candidate, and the fitted model. */
  datatype Fit = Fit(r2: real, model: FittedModel)

  /** The three candidates of `train_performance_model`, in dictionary order. */
  datatype Fits = Fits(randomForest: Fit, gradientBoosting: Fit, linearRegression: Fit)

  /** What splitting, scaling and fitting the training set bring: an exception
      raised while splitting or scaling (before the scaler is stored), one raised
      while fitting or scoring the candidates (after it), or the three fits. */
  datatype FitOutcome = ScalingFailed(scalingError: string) | FittingFailed(fittingError: string) | Fitted(fits: Fits)

  datatype Candidate = Candidate(name: string, fit: Fit)

  function Candidates(fits: Fits): (r: seq<Candidate>)
    ensures |r| == 3
  {
    [Candidate("random_forest", fits.randomForest),
     Candidate("gradient_boosting", fits.gradientBoosting),
     Candidate("linear_regression", fits.linearRegression)]
  }

  /** `max(results.keys(), key=r2)`: the first candidate with the highest r2. */
  function BestIndex(candidates: seq<Candidate>): (b: nat)
    requires |candidates| > 0
    ensures b < |candidates|
    ensures forall j :: 0 <= j < |candidates| ==> candidates[j].fit.r2 <= candidates[b].fit.r2
    ensures forall j :: 0 <= j < b ==> candidates[j].fit.r2 < candidates[b].fit.r2
  {
    if |candidates| == 1 then 0
    else
      var b := BestIndex(candidates[..|candidates| - 1]);
      if candidates[|candidates| - 1].fit.r2 > candidates[b].fit.r2 then |candidates| - 1 else b
  }

  /** The returned dictionary of a successful training: the best candidate's name, the
      r2 of each candidate and the best model's feature importances. */
  datatype Training = Training(bestModel: string, r2Scores: seq<(string, real)>, featureImportance: seq<Importance>)

  function R2Scores(candidates: seq<Candidate>): (r: seq<(string, real)>)
    ensures |r| == |candidates| && forall k :: 0 <= k < |r| ==> r[k] == (candidates[k].name, candidates[k].fit.r2)
  {
    seq(|candidates|, k requires 0 <= k < |candidates| => (candidates[k].name, candidates[k].fit.r2))
  }

  // ---------------------------------------------------------------------------
  // Prediction

  /** The player dictionary: the career events when `statsbomb_data.career` is
      there, and the age when given. */
  datatype PlayerData = PlayerData(career: Option<seq<Event>>, age: Option<int>)

  /** `player_data.get('age', 25)` */
  function AgeOf(d: PlayerData): int {
    d.age.GetOr(25)
  }

  /** The returned dictionary of a successful prediction. */
  datatype Potential = Potential(currentPerformance: real, predictions: seq<YearPrediction>, confidence: real)

  /** The features a prediction uses: padded with zero columns for every trained
      column the player lacks, then restricted to the trained columns in their order. */
  function AlignedFeatures(features: Frame, featureColumns: seq<string>): (r: Frame)
    requires WellFormed(features)
    ensures WellFormed(r) && r.columns == featureColumns && r.height == features.height
    ensures forall c :: c in featureColumns ==> r.cells[c] == if c in features.cells then features.cells[c] else Zeros(features.height)
  {
    PaddedProperties(features, featureColumns);
    SelectColumns(Padded(features, featureColumns), featureColumns)
  }

  /** `PlayerPerformancePredictor`: the stored models and scalers (by key), the label
      encoders and the feature columns of the last training. */
  class PlayerPerformancePredictor {
    var models: map<string, FittedModel>
    var scalers: set<string>
    var labelEncoders: set<string>
    var featureColumns: seq<string>

    /** A model is only stored next to its scaler, the feature columns have no
        repeats, and no label encoder is ever stored (the one `prepare_features`
        would store sits after the statement that always raises). */
    ghost predicate Valid()
      reads this
    {
      && ("performance" in models ==> "performance" in scalers)
      && (forall i, j :: 0 <= i < j < |featureColumns| ==> featureColumns[i] != featureColumns[j])
      && labelEncoders == {}
    }

    constructor ()
      ensures Valid()
      ensures models == map[] && scalers == {} && labelEncoders == {} && featureColumns == []
    {
      models := map[];
      scalers := {};
      labelEncoders := {};
      featureColumns := [];
    }

    /** `train_performance_model`; `fit` stands for sklearn's split, scaling, fitting
        and scoring of the gathered training set. */
    method TrainPerformanceModel(records: seq<TrainingRecord>, fit: TrainingSet -> FitOutcome) returns (r: Result<Training>)
      requires Valid()
      modifies this
      ensures Valid()
      ensures labelEncoders == old(labelEncoders)
      ensures Count(records, Usable) == 0 ==>
        r == Failure("Insufficient training data") && models == old(models) && scalers == old(scalers) && featureColumns == old(featureColumns)
      ensures Count(records, Usable) > 0 ==> featureColumns == Distinct(Gathered(records).columnNames)
      ensures Count(records, Usable) > 0 ==>
        var outcome := fit(TrainingSet(featureColumns, Gathered(records).rows, Gathered(records).targets));
        match outcome
        case ScalingFailed(e) => r == Failure(e) && models == old(models) && scalers == old(scalers)
        case FittingFailed(e) => r == Failure(e) && models == old(models) && scalers == old(scalers) + {"performance"}
        case Fitted(fits) =>
          var best := Candidates(fits)[BestIndex(Candidates(fits))];
          && scalers == old(scalers) + {"performance"}
          && models == old(models)["performance" := best.fit.model]
          && r == Success(Training(best.name, R2Scores(Candidates(fits)), FeatureImportance(featureColumns, best.fit.model)))
    {
      var collected := CollectTrainingData(records);
      GatheredSamples(records);
      if |collected.rows| == 0 || |collected.targets| == 0 {
        return Failure("Insufficient training data");
      }
      featureColumns := Distinct(collected.columnNames);
      var outcome := fit(TrainingSet(featureColumns, collected.rows, collected.targets));
      match outcome
      case ScalingFailed(e) =>
        r := Failure(e);
      case FittingFailed(e) =>
        scalers := scalers + {"performance"};
        r := Failure(e);
      case Fitted(fits) =>
        scalers := scalers + {"performance"};
        var candidates := Candidates(fits);
        var best := candidates[BestIndex(candidates)];
        models := models["performance" := best.fit.model];
        r := Success(Training(best.name, R2Scores(candidates), FeatureImportance(featureColumns, best.fit.model)));
    }

    /** `predict_player_potential`; `features` is what `prepare_features` makes of the
        career, `predict` the stored model's prediction on the scaled aligned features
        and `draw` the random draw of each year. */
    method PredictPlayerPotential(data: PlayerData, yearsAhead: int, features: Frame, predict: (FittedModel, Frame) -> real, draw: int -> real)
      returns (r: Result<Potential>)
      requires Valid() && WellFormed(features)
      ensures data.career.None? ==> r == Failure("No career data available")
      ensures data.career == Some([]) ==> r == Failure("Empty career data")
      ensures data.career.Some? && |data.career.value| > 0 && Empty(features) ==> r == Failure("Could not prepare features")
      ensures data.career.Some? && |data.career.value| > 0 && !Empty(features) && "performance" !in models ==>
        r == Failure("Model not trained yet")
      ensures r.Success? <==> data.career.Some? && |data.career.value| > 0 && !Empty(features) && "performance" in models
      ensures r.Success? ==>
        var aligned := AlignedFeatures(features, featureColumns);
        && r.value.currentPerformance == predict(models["performance"], aligned)
        && Projects(r.value.predictions, r.value.currentPerformance, AgeOf(data), yearsAhead, draw)
        && r.value.confidence == PredictionConfidence(aligned)
    {
      if data.career.None? {
        return Failure("No career data available");
      }
      var playerRows := data.career.value;
      if |playerRows| == 0 {
        return Failure("Empty career data");
      }
      if Empty(features) {
        return Failure("Could not prepare features");
      }
      var padded := AlignColumns(features, featureColumns);
      PaddedProperties(features, featureColumns);
      var aligned := SelectColumns(padded, featureColumns);
      if "performance" !in scalers {
        return Failure("Model not trained yet");
      }
      if "performance" !in models {
        return Failure("Model not trained yet");
      }
      var currentPerformance := predict(models["performance"], aligned);
      var predictions := PredictFuturePerformance(currentPerformance, AgeOf(data), yearsAhead, draw);
      r := Success(Potential(currentPerformance, predictions, PredictionConfidence(aligned)));
    }
  }
}
