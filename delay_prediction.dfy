/** The two-phase delay predictor around its models: feature columns the frame lacks are
    filled with 0, the scale indicators are derived from the first row, rows the classifier
    does not flag as delayed get 0 predicted days, and each probability is bucketed into a
    risk level. The classifier and the regressor are parameters. */
module DelayPrediction {
  import opened Values
  import opened FeatureValidation
  import DelayApi

  // ---------------------------------------------------------------- risk levels

  /** `_categorize_risk` for one probability. */
  function DelayRisk(prob: real): (level: Risk)
    ensures level == Low <==> prob < 0.3
    ensures level == Medium <==> 0.3 <= prob < 0.6
    ensures level == High <==> prob >= 0.6
  {
    if prob < 0.3 then Low else if prob < 0.6 then Medium else High
  }

  /** A higher probability never gives a lower risk level. */
  lemma DelayRiskMonotone(p: real, q: real)
    requires p <= q
    ensures Rank(DelayRisk(p)) <= Rank(DelayRisk(q))
  {
  }

  /** `_categorize_risk`: one level per probability, in order. */
  method CategorizeRisk(probabilities: seq<real>) returns (levels: seq<Risk>)
    ensures |levels| == |probabilities|
    ensures forall i :: 0 <= i < |probabilities| ==> levels[i] == DelayRisk(probabilities[i])
  {
    levels := [];
    for i := 0 to |probabilities|
      invariant |levels| == i
      invariant forall j :: 0 <= j < i ==> levels[j] == DelayRisk(probabilities[j])
    {
      var prob := probabilities[i];
      if prob < 0.3 {
        levels := levels + [Low];
      } else if prob < 0.6 {
        levels := levels + [Medium];
      } else {
        levels := levels + [High];
      }
    }
  }

  // ---------------------------------------------------------------- predicted days

  /** How many of the first `i` rows are delayed. */
  function DelayedBefore(isDelayed: seq<bool>, i: nat): nat
    requires i <= |isDelayed|
  {
    if i == 0 then 0 else DelayedBefore(isDelayed, i - 1) + (if isDelayed[i - 1] then 1 else 0)
  }

  function CountDelayed(isDelayed: seq<bool>): nat
  {
    DelayedBefore(isDelayed, |isDelayed|)
  }

  /** A delayed row has a regressor output of its own: fewer delayed rows precede it than there
      are delayed rows. */
  lemma {:induction false} DelayedBeforeBound(isDelayed: seq<bool>, i: nat, j: nat)
    requires i <= j <= |isDelayed|
    ensures DelayedBefore(isDelayed, i) <= DelayedBefore(isDelayed, j)
    ensures i < j && isDelayed[i] ==> DelayedBefore(isDelayed, i) < DelayedBefore(isDelayed, j)
    decreases j - i
  {
    if i < j {
      DelayedBeforeBound(isDelayed, i + 1, j);
    }
  }

  /** The days predicted for row `i`: its regressor output when it is delayed, 0 otherwise. */
  function RowDays(isDelayed: seq<bool>, delayedDays: seq<real>, i: nat): real
    requires |delayedDays| == CountDelayed(isDelayed) && i < |isDelayed|
  {
    if isDelayed[i] then
      DelayedBeforeBound(isDelayed, i, |isDelayed|);
      delayedDays[DelayedBefore(isDelayed, i)]
    else 0.0
  }

  /** The days of the delayed rows among the first `i`, in row order. */
  function DelayedRowDays(isDelayed: seq<bool>, delayedDays: seq<real>, i: nat): seq<real>
    requires |delayedDays| == CountDelayed(isDelayed) && i <= |isDelayed|
  {
    if i == 0 then []
    else
      DelayedRowDays(isDelayed, delayedDays, i - 1)
      + (if isDelayed[i - 1] then [RowDays(isDelayed, delayedDays, i - 1)] else [])
  }

  lemma {:induction false} DelayedRowDaysPrefix(isDelayed: seq<bool>, delayedDays: seq<real>, i: nat)
    requires |delayedDays| == CountDelayed(isDelayed) && i <= |isDelayed|
    ensures DelayedBefore(isDelayed, i) <= |delayedDays|
    ensures DelayedRowDays(isDelayed, delayedDays, i) == delayedDays[..DelayedBefore(isDelayed, i)]
  {
    DelayedBeforeBound(isDelayed, i, |isDelayed|);
    if i > 0 {
      DelayedRowDaysPrefix(isDelayed, delayedDays, i - 1);
      var k := DelayedBefore(isDelayed, i - 1);
      if isDelayed[i - 1] {
        assert delayedDays[..k + 1] == delayedDays[..k] + [delayedDays[k]];
      }
    }
  }

  /** Read back along the delayed rows, the predicted days are the regressor's outputs, each
      used once and in order. */
  lemma OutputsInRowOrder(isDelayed: seq<bool>, delayedDays: seq<real>)
    requires |delayedDays| == CountDelayed(isDelayed)
    ensures DelayedRowDays(isDelayed, delayedDays, |isDelayed|) == delayedDays
  {
    DelayedRowDaysPrefix(isDelayed, delayedDays, |isDelayed|);
    assert delayedDays[..|delayedDays|] == delayedDays;
  }

  /** The predicted days per row: 0 everywhere, then the regressor's outputs, one per delayed
      row in row order, written into the delayed rows. */
  method MaskedDays(isDelayed: seq<bool>, delayedDays: seq<real>) returns (days: array<real>)
    requires |delayedDays| == CountDelayed(isDelayed)
    ensures fresh(days) && days.Length == |isDelayed|
    ensures forall i :: 0 <= i < |isDelayed| ==> days[i] == RowDays(isDelayed, delayedDays, i)
  {
    days := new real[|isDelayed|](_ => 0.0);
    if CountDelayed(isDelayed) > 0 {
      var k := 0;
      for i := 0 to |isDelayed|
        invariant k == DelayedBefore(isDelayed, i)
        invariant forall j :: 0 <= j < i ==> days[j] == RowDays(isDelayed, delayedDays, j)
        invariant forall j :: i <= j < |isDelayed| ==> days[j] == 0.0
      {
        if isDelayed[i] {
          DelayedBeforeBound(isDelayed, i, |isDelayed|);
          days[i] := delayedDays[k];
          k := k + 1;
        }
      }
    } else {
      forall i | 0 <= i < |isDelayed| && isDelayed[i] ensures false {
        DelayedBeforeBound(isDelayed, i, |isDelayed|);
      }
    }
  }

  /** The result rows: the classifier's verdict and probability, the predicted days cut to
      whole days, and the risk level. */
  method PredictResults(probabilities: seq<real>, isDelayed: seq<bool>, delayedDays: seq<real>)
    returns (results: seq<DelayApi.DelayResult>)
    requires |probabilities| == |isDelayed| && |delayedDays| == CountDelayed(isDelayed)
    ensures |results| == |isDelayed|
    ensures forall i :: 0 <= i < |results| ==>
      && results[i].isDelayed == isDelayed[i]
      && results[i].delayProbability == probabilities[i]
      && results[i].predictedDelayDays == Truncate(RowDays(isDelayed, delayedDays, i))
      && results[i].riskLevel == RiskName(DelayRisk(probabilities[i]))
  {
    var days := MaskedDays(isDelayed, delayedDays);
    var levels := CategorizeRisk(probabilities);
    results := [];
    for i := 0 to |isDelayed|
      invariant |results| == i
      invariant forall j :: 0 <= j < i ==>
        results[j] == DelayApi.DelayResult(isDelayed[j], probabilities[j], Truncate(days[j]), RiskName(levels[j]))
    {
      results := results + [DelayApi.DelayResult(isDelayed[i], probabilities[i], Truncate(days[i]), RiskName(levels[i]))];
    }
  }

  // ---------------------------------------------------------------- feature columns

  /** A feature frame: its number of rows and its columns by name. */
  datatype Frame = Frame(rows: nat, columns: map<string, seq<Cell>>)

  /** Every column has one cell per row. */
  predicate Rectangular(frame: Frame)
  {
    forall c :: c in frame.columns ==> |frame.columns[c]| == frame.rows
  }

  function Zeros(n: nat): seq<Cell>
  {
    seq(n, _ => Number(0.0))
  }

  /** The numeric feature columns the models expect. */
  const NumFeatures: seq<string> := [
    "final_project_cost", "totalincurredcost", "totallandcost",
    "budget_overrun_percent", "progress_ratio", "bookedunits",
    "totalunits", "land_utilization", "planned_duration_days",
    "actual_duration_days", "avg_temp", "total_rain",
    "cost_per_unit", "cost_per_sqft", "land_cost_ratio", "overrun_severity",
    "booking_rate", "utilization_efficiency", "duration_ratio",
    "project_complexity", "duration_per_unit", "weather_risk",
    "temp_deviation", "is_large_project", "is_high_cost",
    "cost_duration_interaction", "weather_duration"
  ]

  /** Missing feature columns are added, filled with 0; existing columns are kept as they are. */
  method FillMissing(frame: Frame, features: seq<string>) returns (filled: Frame)
    ensures filled.rows == frame.rows
    ensures filled.columns.Keys == frame.columns.Keys + set f | f in features
    ensures forall c :: c in frame.columns ==> filled.columns[c] == frame.columns[c]
    ensures forall c :: c in filled.columns && c !in frame.columns ==> filled.columns[c] == Zeros(frame.rows)
    ensures Rectangular(frame) ==> Rectangular(filled)
  {
    filled := frame;
    for i := 0 to |features|
      invariant filled.rows == frame.rows
      invariant filled.columns.Keys == frame.columns.Keys + set f | f in features[..i]
      invariant forall c :: c in frame.columns ==> filled.columns[c] == frame.columns[c]
      invariant forall c :: c in filled.columns && c !in frame.columns ==> filled.columns[c] == Zeros(frame.rows)
    {
      var feature := features[i];
      if feature !in filled.columns {
        filled := filled.(columns := filled.columns[feature := Zeros(frame.rows)]);
      }
      assert features[..i + 1] == features[..i] + [feature];
    }
    assert features[..|features|] == features;
  }

  /** `[c for c in features if c in df.columns]`. */
  function Available(features: seq<string>, frame: Frame): (available: seq<string>)
    ensures IsSubsequence(available, features)
    ensures forall c :: c in available <==> c in features && c in frame.columns
  {
    if features == [] then []
    else if features[0] in frame.columns then [features[0]] + Available(features[1..], frame)
    else Available(features[1..], frame)
  }

  /** Once the missing columns are filled, every numeric feature is available, in order. */
  lemma {:induction false} AllAvailable(features: seq<string>, frame: Frame)
    requires forall f :: f in features ==> f in frame.columns
    ensures Available(features, frame) == features
  {
    if features != [] {
      assert features[0] in features;
      AllAvailable(features[1..], frame);
    }
  }

  // ---------------------------------------------------------------- scale indicators

  const LargeProjectUnits: real := 100.0
  const HighCostThreshold: real := 50000000.0

  /** The indicator of the first row: 1 when its value exceeds the threshold, 0 otherwise. */
  function FirstRowFlag(values: seq<real>, threshold: real): (flag: int)
    requires |values| > 0
    ensures flag == 0 || flag == 1
    ensures flag == 1 <==> values[0] > threshold
  {
    if values[0] > threshold then 1 else 0
  }

  /** An indicator column: every row carries the first row's indicator. */
  function FlagColumn(values: seq<real>, threshold: real): (column: seq<int>)
    requires |values| > 0
    ensures |column| == |values|
  {
    seq(|values|, _ => FirstRowFlag(values, threshold))
  }

  /** `is_large_project`. */
  function IsLargeProject(totalUnits: seq<real>): seq<int>
    requires |totalUnits| > 0
  {
    FlagColumn(totalUnits, LargeProjectUnits)
  }

  /** `is_high_cost`. */
  function IsHighCost(finalProjectCost: seq<real>): seq<int>
    requires |finalProjectCost| > 0
  {
    FlagColumn(finalProjectCost, HighCostThreshold)
  }

  /** Row `i` is flagged large exactly when the first row has more than 100 units, and high-cost
      exactly when the first row costs more than 50,000,000; the row's own values do not
      matter. */
  lemma FlagsFromFirstRow(totalUnits: seq<real>, finalProjectCost: seq<real>, i: nat)
    requires |totalUnits| > 0 && |finalProjectCost| > 0
    requires i < |totalUnits| && i < |finalProjectCost|
    ensures IsLargeProject(totalUnits)[i] == (if totalUnits[0] > 100.0 then 1 else 0)
    ensures IsHighCost(finalProjectCost)[i] == (if finalProjectCost[0] > 50000000.0 then 1 else 0)
  {
  }

  /** Two frames whose first rows agree get the same indicator columns. */
  lemma FlagsIgnoreLaterRows(a: seq<real>, b: seq<real>, threshold: real)
    requires |a| == |b| > 0 && a[0] == b[0]
    ensures FlagColumn(a, threshold) == FlagColumn(b, threshold)
  {
  }
}
