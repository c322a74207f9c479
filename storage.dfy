/** The statistics the prediction store computes over its logs: one pass over the logged rows,
    newest first, with running counters, then the averages. */
module Storage {
  import opened Values

  /** One row of the delay-prediction log, as the aggregation reads it. A NULL text column is
      the empty string: both are falsy. */
  datatype DelayRow = DelayRow(
    isDelayed: bool, predictedDelayDays: int, riskLevel: string, delayProbability: real,
    confidence: string, finalProjectType: string, districtType: string, createdAt: string)

  /** One row of the cost-prediction log. A figure of the stored output that is missing or not
      a number is `None`. */
  datatype CostRow = CostRow(
    createdAt: string, riskLevel: string,
    expectedOverrunPercent: Option<real>, predictedFinalCost: Option<real>)

  /** The delay statistics, before rounding. */
  datatype DelayStats = DelayStats(
    totalPredictions: nat, delayedCount: nat, onTimeCount: int, delayRate: real,
    riskCounts: map<string, nat>, avgDelayProbability: real, avgDelayDays: real,
    confidenceCounts: map<string, nat>, projectTypeDistribution: map<string, nat>,
    districtDistribution: map<string, nat>, latestPredictionAt: Option<string>)

  /** The cost statistics, before rounding. */
  datatype CostStats = CostStats(
    totalPredictions: nat, riskCounts: map<string, nat>, avgOverrunPercent: real,
    avgFinalCost: real, latestPredictionAt: Option<string>)

  /** The text columns of the delay log that the aggregation reads. */
  datatype Column = RiskLevel | Confidence | ProjectType | District | CreatedAt

  function TextOf(row: DelayRow, c: Column): string
  {
    match c
    case RiskLevel => row.riskLevel
    case Confidence => row.confidence
    case ProjectType => row.finalProjectType
    case District => row.districtType
    case CreatedAt => row.createdAt
  }

  /** One column of the delay log, row by row. */
  function ColumnOf(rows: seq<DelayRow>, c: Column): (col: seq<string>)
    ensures |col| == |rows|
  {
    seq(|rows|, i requires 0 <= i < |rows| => TextOf(rows[i], c))
  }

  function CostStamps(rows: seq<CostRow>): (col: seq<string>)
    ensures |col| == |rows| && forall i :: 0 <= i < |rows| ==> col[i] == rows[i].createdAt
  {
    seq(|rows|, i requires 0 <= i < |rows| => rows[i].createdAt)
  }

  function CostLevels(rows: seq<CostRow>): (col: seq<string>)
    ensures |col| == |rows| && forall i :: 0 <= i < |rows| ==> col[i] == rows[i].riskLevel
  {
    seq(|rows|, i requires 0 <= i < |rows| => rows[i].riskLevel)
  }

  function Percents(rows: seq<CostRow>): (col: seq<Option<real>>)
    ensures |col| == |rows| && forall i :: 0 <= i < |rows| ==> col[i] == rows[i].expectedOverrunPercent
  {
    seq(|rows|, i requires 0 <= i < |rows| => rows[i].expectedOverrunPercent)
  }

  function FinalCosts(rows: seq<CostRow>): (col: seq<Option<real>>)
    ensures |col| == |rows| && forall i :: 0 <= i < |rows| ==> col[i] == rows[i].predictedFinalCost
  {
    seq(|rows|, i requires 0 <= i < |rows| => rows[i].predictedFinalCost)
  }

  /** The number of entries equal to `v`. */
  function Occurrences(xs: seq<string>, v: string): nat
  {
    if xs == [] then 0
    else Occurrences(xs[..|xs| - 1], v) + (if xs[|xs| - 1] == v then 1 else 0)
  }

  /** The risk and confidence levels that have a counter. */
  function TrackedLevels(): set<string>
  {
    {RiskName(High), RiskName(Medium), RiskName(Low)}
  }

  /** The counters of the three levels: each counts the entries naming it exactly; any other
      text ("Unknown", NULL) is counted nowhere. */
  function LevelCounts(levels: seq<string>): map<string, nat>
  {
    map name | name in TrackedLevels() :: Occurrences(levels, name)
  }

  /** The count of each non-empty value that occurs. */
  function Distribution(values: seq<string>): map<string, nat>
  {
    map v | v in values && v != "" :: Occurrences(values, v)
  }

  /** `latest_ts = latest_ts or created_at` over the stamps, newest first: nothing without
      rows; otherwise the first non-empty stamp, or an empty one when every stamp is empty. */
  predicate IsLatest(stamps: seq<string>, latest: Option<string>)
  {
    && (latest.None? <==> stamps == [])
    && (latest.Some? ==> (latest.value == "" <==> forall j :: 0 <= j < |stamps| ==> stamps[j] == ""))
    && (latest.Some? && latest.value != "" ==>
          exists k :: 0 <= k < |stamps| && stamps[k] == latest.value
            && forall j :: 0 <= j < k ==> stamps[j] == "")
  }

  /** The number of delayed rows. */
  function DelayedCount(rows: seq<DelayRow>): nat
  {
    if rows == [] then 0
    else DelayedCount(rows[..|rows| - 1]) + (if rows[|rows| - 1].isDelayed then 1 else 0)
  }

  /** The predicted delay days summed over the delayed rows. */
  function DelayDaysTotal(rows: seq<DelayRow>): int
  {
    if rows == [] then 0
    else
      var last := rows[|rows| - 1];
      DelayDaysTotal(rows[..|rows| - 1]) + (if last.isDelayed then last.predictedDelayDays else 0)
  }

  /** The delay probabilities summed over all rows. */
  function ProbabilitySum(rows: seq<DelayRow>): real
  {
    if rows == [] then 0.0 else ProbabilitySum(rows[..|rows| - 1]) + rows[|rows| - 1].delayProbability
  }

  /** The numeric figures summed, the others skipped. */
  function NumericSum(xs: seq<Option<real>>): real
  {
    if xs == [] then 0.0
    else NumericSum(xs[..|xs| - 1]) + (if xs[|xs| - 1].Some? then xs[|xs| - 1].value else 0.0)
  }

  /** `sum / count`, or 0 without anything to divide by. */
  function Average(sum: real, count: nat): real
  {
    if count > 0 then sum / count as real else 0.0
  }

  /** One step of the running stamp: an unset or empty stamp takes the row's. */
  function NextLatest(latest: Option<string>, stamp: string): Option<string>
  {
    if latest.None? || latest.value == "" then Some(stamp) else latest
  }

  /** A counter map with one more `v`, starting from 0 for a new key. */
  function Bump(m: map<string, nat>, v: string): map<string, nat>
  {
    m[v := (if v in m then m[v] else 0) + 1]
  }

  lemma {:induction false} OccurrencesAbsent(xs: seq<string>, v: string)
    requires v !in xs
    ensures Occurrences(xs, v) == 0
  {
    if xs != [] {
      assert forall x :: x in xs[..|xs| - 1] ==> x in xs;
      OccurrencesAbsent(xs[..|xs| - 1], v);
    }
  }

  /** `level or "Unknown"`, the key a level is counted under. */
  function CountedAs(level: string): string
  {
    if level != "" then level else "Unknown"
  }

  /** One step of a level counter: the level's counter, if it has one, goes up by one. */
  function CountLevel(counts: map<string, nat>, level: string): map<string, nat>
  {
    var key := CountedAs(level);
    if key in counts then counts[key := counts[key] + 1] else counts
  }

  lemma LevelCountsStep(xs: seq<string>, x: string)
    ensures LevelCounts(xs + [x]) == CountLevel(LevelCounts(xs), x)
  {
    assert (xs + [x])[..|xs|] == xs;
    assert "Unknown" !in TrackedLevels();
  }

  lemma DistributionStep(xs: seq<string>, x: string)
    ensures Distribution(xs + [x]) == if x != "" then Bump(Distribution(xs), x) else Distribution(xs)
  {
    var ys := xs + [x];
    assert ys[..|xs|] == xs;
    assert forall v :: v in ys <==> v in xs || v == x;
    if x != "" && x !in xs {
      OccurrencesAbsent(xs, x);
    }
  }

  /** The stamp the running `latest_ts` holds after the given stamps. */
  function LatestOf(stamps: seq<string>): Option<string>
  {
    if stamps == [] then None else NextLatest(LatestOf(stamps[..|stamps| - 1]), stamps[|stamps| - 1])
  }

  lemma {:induction false} LatestOfIsLatest(stamps: seq<string>)
    ensures IsLatest(stamps, LatestOf(stamps))
  {
    if stamps != [] {
      var init := stamps[..|stamps| - 1];
      LatestOfIsLatest(init);
      LatestStep(init, LatestOf(init), stamps[|stamps| - 1]);
      assert init + [stamps[|stamps| - 1]] == stamps;
    }
  }

  lemma LatestStep(stamps: seq<string>, latest: Option<string>, s: string)
    requires IsLatest(stamps, latest)
    ensures IsLatest(stamps + [s], NextLatest(latest, s))
  {
    var ys := stamps + [s];
    if latest.Some? && latest.value != "" {
      var k :| 0 <= k < |stamps| && stamps[k] == latest.value && forall j :: 0 <= j < k ==> stamps[j] == "";
      assert ys[k] == latest.value;
    } else if s != "" {
      assert ys[|stamps|] == s;
    }
  }

  /** The running sums over the first `i + 1` delay rows are those over the first `i` taken
      one row further. */
  lemma DelayRowStep(rows: seq<DelayRow>, i: nat)
    requires i < |rows|
    ensures var before, after, row := rows[..i], rows[..i + 1], rows[i];
      && DelayedCount(after) == DelayedCount(before) + (if row.isDelayed then 1 else 0)
      && DelayDaysTotal(after) == DelayDaysTotal(before) + (if row.isDelayed then row.predictedDelayDays else 0)
      && ProbabilitySum(after) == ProbabilitySum(before) + row.delayProbability
  {
    assert rows[..i + 1][..i] == rows[..i];
  }

  /** One column of the first `i + 1` delay rows is that of the first `i` and one entry more. */
  lemma ColumnStep(rows: seq<DelayRow>, c: Column, i: nat)
    requires i < |rows|
    ensures ColumnOf(rows[..i + 1], c) == ColumnOf(rows[..i], c) + [TextOf(rows[i], c)]
  {
  }

  /** A level counter over the first `i + 1` delay rows is the counter over the first `i`
      taken one row further. */
  lemma LevelColumnStep(rows: seq<DelayRow>, c: Column, i: nat)
    requires i < |rows|
    ensures LevelCounts(ColumnOf(rows[..i + 1], c)) == CountLevel(LevelCounts(ColumnOf(rows[..i], c)), TextOf(rows[i], c))
  {
    ColumnStep(rows, c, i);
    LevelCountsStep(ColumnOf(rows[..i], c), TextOf(rows[i], c));
  }

  /** So is a distribution. */
  lemma DistributionColumnStep(rows: seq<DelayRow>, c: Column, i: nat)
    requires i < |rows|
    ensures var before, x := Distribution(ColumnOf(rows[..i], c)), TextOf(rows[i], c);
      Distribution(ColumnOf(rows[..i + 1], c)) == if x != "" then Bump(before, x) else before
  {
    ColumnStep(rows, c, i);
    DistributionStep(ColumnOf(rows[..i], c), TextOf(rows[i], c));
  }

  /** And so is the latest stamp. */
  lemma LatestColumnStep(rows: seq<DelayRow>, i: nat)
    requires i < |rows|
    ensures LatestOf(ColumnOf(rows[..i + 1], CreatedAt)) == NextLatest(LatestOf(ColumnOf(rows[..i], CreatedAt)), rows[i].createdAt)
  {
    ColumnStep(rows, CreatedAt, i);
    assert ColumnOf(rows[..i + 1], CreatedAt)[..i] == ColumnOf(rows[..i], CreatedAt);
  }

  /** The counters over the text columns of the first `i + 1` delay rows are those over the
      first `i` taken one row further. */
  lemma DelayColumnsStep(rows: seq<DelayRow>, i: nat)
    requires i < |rows|
    ensures var before, after, row := rows[..i], rows[..i + 1], rows[i];
      && LevelCounts(ColumnOf(after, RiskLevel)) == CountLevel(LevelCounts(ColumnOf(before, RiskLevel)), row.riskLevel)
      && LevelCounts(ColumnOf(after, Confidence)) == CountLevel(LevelCounts(ColumnOf(before, Confidence)), row.confidence)
      && Distribution(ColumnOf(after, ProjectType)) ==
           (if row.finalProjectType != "" then Bump(Distribution(ColumnOf(before, ProjectType)), row.finalProjectType)
            else Distribution(ColumnOf(before, ProjectType)))
      && Distribution(ColumnOf(after, District)) ==
           (if row.districtType != "" then Bump(Distribution(ColumnOf(before, District)), row.districtType)
            else Distribution(ColumnOf(before, District)))
      && LatestOf(ColumnOf(after, CreatedAt)) == NextLatest(LatestOf(ColumnOf(before, CreatedAt)), row.createdAt)
  {
    LevelColumnStep(rows, RiskLevel, i);
    LevelColumnStep(rows, Confidence, i);
    DistributionColumnStep(rows, ProjectType, i);
    DistributionColumnStep(rows, District, i);
    LatestColumnStep(rows, i);
  }

  /** `Storage.aggregate_delay_stats` over the rows of the delay log, newest first. */
  method AggregateDelayStats(rows: seq<DelayRow>) returns (stats: DelayStats)
    ensures stats.totalPredictions == |rows|
    ensures stats.delayedCount == DelayedCount(rows)
    ensures stats.onTimeCount == |rows| - DelayedCount(rows)
    ensures stats.delayRate == Average(DelayedCount(rows) as real, |rows|) * 100.0
    ensures stats.riskCounts == LevelCounts(ColumnOf(rows, RiskLevel))
    ensures stats.confidenceCounts == LevelCounts(ColumnOf(rows, Confidence))
    ensures stats.avgDelayProbability == Average(ProbabilitySum(rows), |rows|)
    ensures stats.avgDelayDays == Average(DelayDaysTotal(rows) as real, DelayedCount(rows))
    ensures stats.projectTypeDistribution == Distribution(ColumnOf(rows, ProjectType))
    ensures stats.districtDistribution == Distribution(ColumnOf(rows, District))
    ensures IsLatest(ColumnOf(rows, CreatedAt), stats.latestPredictionAt)
  {
    var total: nat := 0;
    var delayedCount: nat := 0;
    var riskCounts := LevelCounts([]);
    var avgProbability := 0.0;
    var avgDelayDays := 0.0;
    var totalDelayDays := 0;
    var confidenceCounts := LevelCounts([]);
    var projectTypeCounts: map<string, nat> := map[];
    var districtCounts: map<string, nat> := map[];
    var latest: Option<string> := None;
    for i := 0 to |rows|
      invariant total == i
      invariant delayedCount == DelayedCount(rows[..i])
      invariant totalDelayDays == DelayDaysTotal(rows[..i])
      invariant avgProbability == ProbabilitySum(rows[..i])
      invariant riskCounts == LevelCounts(ColumnOf(rows[..i], RiskLevel))
      invariant confidenceCounts == LevelCounts(ColumnOf(rows[..i], Confidence))
      invariant projectTypeCounts == Distribution(ColumnOf(rows[..i], ProjectType))
      invariant districtCounts == Distribution(ColumnOf(rows[..i], District))
      invariant latest == LatestOf(ColumnOf(rows[..i], CreatedAt))
    {
      var row := rows[i];
      DelayRowStep(rows, i);
      DelayColumnsStep(rows, i);
      total := total + 1;
      if row.isDelayed {
        delayedCount := delayedCount + 1;
        totalDelayDays := totalDelayDays + row.predictedDelayDays;
      }
      riskCounts := CountLevel(riskCounts, row.riskLevel);
      avgProbability := avgProbability + row.delayProbability;
      confidenceCounts := CountLevel(confidenceCounts, row.confidence);
      if row.finalProjectType != "" {
        projectTypeCounts := Bump(projectTypeCounts, row.finalProjectType);
      }
      if row.districtType != "" {
        districtCounts := Bump(districtCounts, row.districtType);
      }
      latest := NextLatest(latest, row.createdAt);
    }
    assert rows[..|rows|] == rows;
    LatestOfIsLatest(ColumnOf(rows, CreatedAt));
    if total > 0 {
      avgProbability := avgProbability / total as real;
      if delayedCount > 0 {
        avgDelayDays := totalDelayDays as real / delayedCount as real;
      }
    }
    var delayRate := if total > 0 then delayedCount as real / total as real * 100.0 else 0.0;
    stats := DelayStats(
      total, delayedCount, total - delayedCount, delayRate, riskCounts, avgProbability,
      avgDelayDays, confidenceCounts, projectTypeCounts, districtCounts, latest);
  }

  /** Every running figure over the first `i + 1` cost rows is the figure over the first `i`
      taken one row further. */
  lemma CostRowStep(rows: seq<CostRow>, i: nat)
    requires i < |rows|
    ensures var before, after, row := rows[..i], rows[..i + 1], rows[i];
      && LevelCounts(CostLevels(after)) == CountLevel(LevelCounts(CostLevels(before)), row.riskLevel)
      && NumericSum(Percents(after)) ==
           NumericSum(Percents(before)) + (if row.expectedOverrunPercent.Some? then row.expectedOverrunPercent.value else 0.0)
      && NumericSum(FinalCosts(after)) ==
           NumericSum(FinalCosts(before)) + (if row.predictedFinalCost.Some? then row.predictedFinalCost.value else 0.0)
      && LatestOf(CostStamps(after)) == NextLatest(LatestOf(CostStamps(before)), row.createdAt)
  {
    var before, after, row := rows[..i], rows[..i + 1], rows[i];
    assert CostLevels(after) == CostLevels(before) + [row.riskLevel];
    assert Percents(after)[..i] == Percents(before);
    assert FinalCosts(after)[..i] == FinalCosts(before);
    assert CostStamps(after)[..i] == CostStamps(before);
    LevelCountsStep(CostLevels(before), row.riskLevel);
  }

  /** `Storage.aggregate_stats` over the rows of the cost log, newest first. */
  method AggregateStats(rows: seq<CostRow>) returns (stats: CostStats)
    ensures stats.totalPredictions == |rows|
    ensures stats.riskCounts == LevelCounts(CostLevels(rows))
    ensures stats.avgOverrunPercent == Average(NumericSum(Percents(rows)), |rows|)
    ensures stats.avgFinalCost == Average(NumericSum(FinalCosts(rows)), |rows|)
    ensures IsLatest(CostStamps(rows), stats.latestPredictionAt)
  {
    var total: nat := 0;
    var riskCounts := LevelCounts([]);
    var avgPercent := 0.0;
    var avgCost := 0.0;
    var latest: Option<string> := None;
    for i := 0 to |rows|
      invariant total == i
      invariant riskCounts == LevelCounts(CostLevels(rows[..i]))
      invariant avgPercent == NumericSum(Percents(rows[..i]))
      invariant avgCost == NumericSum(FinalCosts(rows[..i]))
      invariant latest == LatestOf(CostStamps(rows[..i]))
    {
      var row := rows[i];
      CostRowStep(rows, i);
      total := total + 1;
      riskCounts := CountLevel(riskCounts, row.riskLevel);
      var percent, cost := row.expectedOverrunPercent, row.predictedFinalCost;
      if percent.Some? {
        avgPercent := avgPercent + percent.value;
      }
      if cost.Some? {
        avgCost := avgCost + cost.value;
      }
      latest := NextLatest(latest, row.createdAt);
    }
    assert rows[..|rows|] == rows;
    LatestOfIsLatest(CostStamps(rows));
    if total > 0 {
      avgPercent := avgPercent / total as real;
      avgCost := avgCost / total as real;
    }
    stats := CostStats(total, riskCounts, avgPercent, avgCost, latest);
  }

  /** The delayed rows are at most all rows; none of them exactly when no row is delayed, all
      of them exactly when every row is. */
  lemma {:induction false} DelayedCountBounds(rows: seq<DelayRow>)
    ensures DelayedCount(rows) <= |rows|
    ensures DelayedCount(rows) == 0 <==> forall j :: 0 <= j < |rows| ==> !rows[j].isDelayed
    ensures DelayedCount(rows) == |rows| <==> forall j :: 0 <= j < |rows| ==> rows[j].isDelayed
  {
    if rows != [] {
      var init := rows[..|rows| - 1];
      DelayedCountBounds(init);
      assert forall j :: 0 <= j < |init| ==> init[j] == rows[j];
    }
  }

  /** The delay rate is a percentage, and 0 without rows. */
  lemma DelayRateBounds(rows: seq<DelayRow>)
    ensures 0.0 <= Average(DelayedCount(rows) as real, |rows|) * 100.0 <= 100.0
    ensures rows == [] ==> Average(DelayedCount(rows) as real, |rows|) == 0.0
  {
    DelayedCountBounds(rows);
    ShareBounds(DelayedCount(rows), |rows|);
  }

  lemma ShareBounds(part: nat, whole: nat)
    requires part <= whole
    ensures 0.0 <= Average(part as real, whole) <= 1.0
  {
    if whole > 0 {
      var p, w := part as real, whole as real;
      assert p / w <= w / w;
    }
  }

  /** Only the delayed rows contribute days: logs that agree on which rows are delayed and on
      the days of those rows have the same total, whatever the days of the on-time rows. */
  lemma {:induction false} DelayDaysOnlyDelayed(rows: seq<DelayRow>, others: seq<DelayRow>)
    requires |rows| == |others|
    requires forall j :: 0 <= j < |rows| ==> rows[j].isDelayed == others[j].isDelayed
    requires forall j :: 0 <= j < |rows| && rows[j].isDelayed ==> rows[j].predictedDelayDays == others[j].predictedDelayDays
    ensures DelayDaysTotal(rows) == DelayDaysTotal(others)
  {
    if rows != [] {
      var n := |rows| - 1;
      assert forall j :: 0 <= j < n ==> rows[..n][j] == rows[j] && others[..n][j] == others[j];
      DelayDaysOnlyDelayed(rows[..n], others[..n]);
    }
  }

  /** Without delayed rows the day total and the average delay are 0. */
  lemma {:induction false} NoDelayNoDays(rows: seq<DelayRow>)
    requires DelayedCount(rows) == 0
    ensures DelayDaysTotal(rows) == 0
    ensures Average(DelayDaysTotal(rows) as real, DelayedCount(rows)) == 0.0
  {
    if rows != [] {
      NoDelayNoDays(rows[..|rows| - 1]);
    }
  }

  /** The three level counters together count at most every row, and every row exactly when
      every level is one of the three. */
  lemma {:induction false} LevelCountsTotal(levels: seq<string>)
    ensures var m := LevelCounts(levels);
      m.Keys == TrackedLevels()
      && m[RiskName(High)] + m[RiskName(Medium)] + m[RiskName(Low)] <= |levels|
      && (m[RiskName(High)] + m[RiskName(Medium)] + m[RiskName(Low)] == |levels|
          <==> forall j :: 0 <= j < |levels| ==> levels[j] in TrackedLevels())
  {
    if levels != [] {
      var init := levels[..|levels| - 1];
      LevelCountsTotal(init);
      assert forall j :: 0 <= j < |init| ==> init[j] == levels[j];
    }
  }

  /** Some key of a non-empty map. */
  ghost function Pick(m: map<string, nat>): string
    requires m != map[]
  {
    var k :| k in m; k
  }

  /** The sum of a counter map's counts. */
  ghost function MapSum(m: map<string, nat>): nat
    decreases |m|
  {
    if m == map[] then 0
    else
      var k := Pick(m);
      assert |m - {k}| < |m| by { assert (m - {k}).Keys == m.Keys - {k}; }
      m[k] + MapSum(m - {k})
  }

  /** Any key can be taken out of the sum first. */
  lemma {:induction false} MapSumRemove(m: map<string, nat>, k: string)
    requires k in m
    ensures MapSum(m) == m[k] + MapSum(m - {k})
    decreases |m|
  {
    var j := Pick(m);
    if j != k {
      assert (m - {j}).Keys == m.Keys - {j} && (m - {k}).Keys == m.Keys - {k};
      MapSumRemove(m - {j}, k);
      MapSumRemove(m - {k}, j);
      assert m - {j} - {k} == m - {k} - {j};
    }
  }

  /** Counting one more value raises the sum by one. */
  lemma MapSumBump(m: map<string, nat>, v: string)
    ensures MapSum(Bump(m, v)) == MapSum(m) + 1
  {
    var b := Bump(m, v);
    MapSumRemove(b, v);
    assert b - {v} == m - {v};
    if v in m {
      MapSumRemove(m, v);
    } else {
      assert m - {v} == m;
    }
  }

  /** A distribution counts every row with a non-empty value once: its counts sum to the
      number of such rows, so to at most all rows. */
  lemma {:induction false} DistributionTotal(values: seq<string>)
    ensures "" !in Distribution(values)
    ensures MapSum(Distribution(values)) == |values| - Occurrences(values, "")
    ensures MapSum(Distribution(values)) <= |values|
  {
    if values != [] {
      var init := values[..|values| - 1];
      var x := values[|values| - 1];
      DistributionTotal(init);
      assert values == init + [x];
      DistributionStep(init, x);
      if x != "" {
        MapSumBump(Distribution(init), x);
      }
    }
  }

  /** A value is in the distribution exactly when it is non-empty and some row has it, with
      the number of those rows as its count. */
  lemma DistributionCounts(values: seq<string>, v: string)
    ensures v in Distribution(values) <==> v != "" && exists j :: 0 <= j < |values| && values[j] == v
    ensures v in Distribution(values) ==> Distribution(values)[v] == Occurrences(values, v) > 0
  {
    if v in Distribution(values) {
      OccurrencesPositive(values, v);
    }
  }

  lemma {:induction false} OccurrencesPositive(xs: seq<string>, v: string)
    requires v in xs
    ensures Occurrences(xs, v) > 0
  {
    var n := |xs| - 1;
    if xs[n] != v {
      assert v in xs[..n] by {
        var j :| 0 <= j < |xs| && xs[j] == v;
        assert xs[..n][j] == v;
      }
      OccurrencesPositive(xs[..n], v);
    }
  }

  /** The latest stamp is well defined: the predicate allows one value at most. */
  lemma LatestUnique(stamps: seq<string>, a: Option<string>, b: Option<string>)
    requires IsLatest(stamps, a) && IsLatest(stamps, b)
    ensures a == b
  {
    if a.Some? && b.Some? && a.value != "" && b.value != "" {
      var k :| 0 <= k < |stamps| && stamps[k] == a.value && forall j :: 0 <= j < k ==> stamps[j] == "";
      var l :| 0 <= l < |stamps| && stamps[l] == b.value && forall j :: 0 <= j < l ==> stamps[j] == "";
      assert k == l;
    }
  }

  /** With rows newest first, the latest prediction is the newest row's stamp when it has one. */
  lemma LatestIsNewest(stamps: seq<string>, latest: Option<string>)
    requires IsLatest(stamps, latest) && stamps != [] && stamps[0] != ""
    ensures latest == Some(stamps[0])
  {
    assert IsLatest(stamps, Some(stamps[0]));
    LatestUnique(stamps, latest, Some(stamps[0]));
  }

  /** Figures that are missing or not numbers are skipped: sequences that agree on their
      numeric figures have the same sum. */
  lemma {:induction false} NumericSumSkips(xs: seq<Option<real>>, ys: seq<Option<real>>)
    requires |xs| == |ys|
    requires forall j :: 0 <= j < |xs| && (xs[j].Some? || ys[j].Some?) ==> xs[j] == ys[j]
    ensures NumericSum(xs) == NumericSum(ys)
  {
    if xs != [] {
      var n := |xs| - 1;
      assert forall j :: 0 <= j < n ==> xs[..n][j] == xs[j] && ys[..n][j] == ys[j];
      NumericSumSkips(xs[..n], ys[..n]);
    }
  }

  /** The number of numeric figures. */
  function NumericCount(xs: seq<Option<real>>): nat
  {
    if xs == [] then 0 else NumericCount(xs[..|xs| - 1]) + (if xs[|xs| - 1].Some? then 1 else 0)
  }

  /** The averages divide by every row, numeric or not: when every numeric figure is `c`,
      the sum is `c` times the number of numeric figures, which the average then divides by the
      number of all rows. */
  lemma {:induction false} AverageOverAllRows(xs: seq<Option<real>>, c: real)
    requires forall j :: 0 <= j < |xs| ==> xs[j] == None || xs[j] == Some(c)
    ensures NumericSum(xs) == c * NumericCount(xs) as real
    ensures NumericCount(xs) <= |xs|
  {
    if xs != [] {
      var n := |xs| - 1;
      assert forall j :: 0 <= j < n ==> xs[..n][j] == xs[j];
      AverageOverAllRows(xs[..n], c);
    }
  }
}
