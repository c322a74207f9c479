/** The cost-overrun prediction service: the validation gate in front of the models, the
    arithmetic that turns predicted overrun percentages into costs, the rule tables for risk,
    alerts and recommendations, the prediction log and what-if scenario simulation. The
    models, the feature frame and the explanation of a prediction are parameters. */
module CostService {
  import opened Values
  import opened CostSchema
  import opened FeatureValidation

  // ---------------------------------------------------------------- thresholds

  const AlertThresholdPercent: real := 25.0
  const RiskMediumThreshold: real := 10.0
  const RiskHighThreshold: real := 25.0

  // ---------------------------------------------------------------- risk

  /** `_risk_bucket`. */
  function RiskBucket(percent: real): (risk: Risk)
    ensures risk == Low <==> percent < RiskMediumThreshold
    ensures risk == Medium <==> RiskMediumThreshold <= percent < RiskHighThreshold
    ensures risk == High <==> percent >= RiskHighThreshold
  {
    if percent < RiskMediumThreshold then Low
    else if percent < RiskHighThreshold then Medium
    else High
  }

  /** A higher overrun never gives a lower risk. */
  lemma RiskMonotone(p: real, q: real)
    requires p <= q
    ensures Rank(RiskBucket(p)) <= Rank(RiskBucket(q))
  {
  }

  // ---------------------------------------------------------------- alerts

  datatype Alert = OverrunThreshold | LowProgress | LiquidityRisk

  function AlertText(a: Alert): string
  {
    match a
    case OverrunThreshold => "Predicted cost overrun exceeds alert threshold."
    case LowProgress => "Low progress ratio with rising costs."
    case LiquidityRisk => "Collections below 50% of sales; liquidity risk."
  }

  /** The order in which the alerts are checked. */
  const AlertOrder: seq<Alert> := [OverrunThreshold, LowProgress, LiquidityRisk]

  /** `payload.k` is truthy: present and not 0. */
  predicate Given(request: CostRequest, k: Key)
  {
    k in request.numbers && request.numbers[k] != 0.0
  }

  /** The condition under which an alert is raised. */
  predicate Raised(a: Alert, percent: real, request: CostRequest)
  {
    match a
    case OverrunThreshold => percent >= AlertThresholdPercent
    case LowProgress => Given(request, ProgressRatio) && request.numbers[ProgressRatio] < 0.4
    case LiquidityRisk =>
      Given(request, TotalReceivedAmount) && Given(request, TotalSellingAmount)
      && request.numbers[TotalReceivedAmount] / request.numbers[TotalSellingAmount] < 0.5
  }

  /** The raised alerts among `order`, in that order. */
  function RaisedAlerts(percent: real, request: CostRequest, order: seq<Alert>): (raised: seq<Alert>)
    ensures forall a :: a in raised <==> a in order && Raised(a, percent, request)
    ensures |raised| <= |order|
  {
    if order == [] then []
    else (if Raised(order[0], percent, request) then [order[0]] else []) + RaisedAlerts(percent, request, order[1..])
  }

  /** `_build_alerts`. */
  method BuildAlerts(percent: real, request: CostRequest) returns (alerts: seq<Alert>)
    ensures alerts == RaisedAlerts(percent, request, AlertOrder)
  {
    alerts := [];
    if percent >= AlertThresholdPercent {
      alerts := alerts + [OverrunThreshold];
    }
    if Given(request, ProgressRatio) && request.numbers[ProgressRatio] < 0.4 {
      alerts := alerts + [LowProgress];
    }
    if Given(request, TotalReceivedAmount) && Given(request, TotalSellingAmount) {
      var collectionEfficiency := request.numbers[TotalReceivedAmount] / request.numbers[TotalSellingAmount];
      if collectionEfficiency < 0.5 {
        alerts := alerts + [LiquidityRisk];
      }
    }
    AlertOrderUnfolded(percent, request);
  }

  /** The alerts raised in the checking order, one check at a time. */
  lemma AlertOrderUnfolded(percent: real, request: CostRequest)
    ensures RaisedAlerts(percent, request, AlertOrder) ==
      (if Raised(OverrunThreshold, percent, request) then [OverrunThreshold] else [])
      + (if Raised(LowProgress, percent, request) then [LowProgress] else [])
      + (if Raised(LiquidityRisk, percent, request) then [LiquidityRisk] else [])
  {
    assert AlertOrder[1..] == [LowProgress, LiquidityRisk];
    assert [LowProgress, LiquidityRisk][1..] == [LiquidityRisk];
    assert [LiquidityRisk][1..] == [];
    RaisedAlertsCons(percent, request, AlertOrder);
    RaisedAlertsCons(percent, request, [LowProgress, LiquidityRisk]);
    RaisedAlertsCons(percent, request, [LiquidityRisk]);
  }

  /** The first alert of the order, if raised, then the rest. */
  lemma RaisedAlertsCons(percent: real, request: CostRequest, order: seq<Alert>)
    requires order != []
    ensures RaisedAlerts(percent, request, order) ==
      (if Raised(order[0], percent, request) then [order[0]] else []) + RaisedAlerts(percent, request, order[1..])
  {
  }

  /** An alert is listed exactly when its condition holds, the alerts keep the checking order,
      and none is listed twice. */
  lemma {:induction false} AlertsExact(percent: real, request: CostRequest, order: seq<Alert>)
    requires forall i, j :: 0 <= i < j < |order| ==> order[i] != order[j]
    ensures forall a :: a in RaisedAlerts(percent, request, order) <==> a in order && Raised(a, percent, request)
    ensures IsSubsequence(RaisedAlerts(percent, request, order), order)
    ensures forall i, j :: 0 <= i < j < |RaisedAlerts(percent, request, order)| ==>
      RaisedAlerts(percent, request, order)[i] != RaisedAlerts(percent, request, order)[j]
  {
    if order != [] {
      var rest := order[1..];
      assert forall i, j :: 0 <= i < j < |rest| ==> rest[i] != rest[j] by {
        forall i, j | 0 <= i < j < |rest| ensures rest[i] != rest[j] {
          assert rest[i] == order[i + 1] && rest[j] == order[j + 1];
        }
      }
      AlertsExact(percent, request, rest);
      var tail := RaisedAlerts(percent, request, rest);
      var all := RaisedAlerts(percent, request, order);
      assert order[0] !in rest by {
        forall j | 0 <= j < |rest| ensures rest[j] != order[0] {
          assert rest[j] == order[j + 1];
        }
      }
      if Raised(order[0], percent, request) {
        assert all == [order[0]] + tail;
        assert all[1..] == tail;
        forall i, j | 0 <= i < j < |all| ensures all[i] != all[j] {
          assert all[j] == tail[j - 1] && tail[j - 1] in tail;
          if i > 0 {
            assert all[i] == tail[i - 1];
          }
        }
      } else {
        assert all == tail;
      }
    }
  }

  /** Each of the three alerts is raised exactly under its own condition. */
  lemma AlertConditions(percent: real, request: CostRequest)
    ensures var alerts := RaisedAlerts(percent, request, AlertOrder);
      && (OverrunThreshold in alerts <==> percent >= AlertThresholdPercent)
      && (LowProgress in alerts <==> Given(request, ProgressRatio) && request.numbers[ProgressRatio] < 0.4)
      && (LiquidityRisk in alerts <==>
            Given(request, TotalReceivedAmount) && Given(request, TotalSellingAmount)
            && request.numbers[TotalReceivedAmount] / request.numbers[TotalSellingAmount] < 0.5)
      && |alerts| <= 3
  {
    AlertsExact(percent, request, AlertOrder);
    assert AlertOrder[1..][1..][1..] == [];
  }

  // ---------------------------------------------------------------- recommendations

  /** The share of a feature in a prediction, as the explanation reports it. */
  datatype Contribution = Contribution(feature: string, impact: real, direction: string)

  datatype Recommendation =
    | CostControlTaskForce | TightenProcurement | MonthlyMonitoring
    | IncreaseThroughput | ImproveCollection

  function RecommendationText(r: Recommendation): string
  {
    match r
    case CostControlTaskForce => "Activate cost-control task force and re-baseline budget."
    case TightenProcurement => "Tighten procurement approvals and monitor weekly."
    case MonthlyMonitoring => "Maintain monthly monitoring cadence."
    case IncreaseThroughput => "Increase execution throughput to avoid compounding overruns."
    case ImproveCollection => "Improve cash collection to reduce financing strain."
  }

  /** The first recommendation, by overrun tier. */
  function TierRecommendation(percent: real): Recommendation
  {
    if percent >= RiskHighThreshold then CostControlTaskForce
    else if percent >= RiskMediumThreshold then TightenProcurement
    else MonthlyMonitoring
  }

  predicate IsCashFactor(feature: string)
  {
    feature == "cashflow_pressure" || feature == "collection_efficiency"
  }

  /** One of the two leading contributors is a cash factor. */
  predicate CashLeads(contributors: seq<Contribution>)
  {
    exists i :: 0 <= i < |contributors| && i < 2 && IsCashFactor(contributors[i].feature)
  }

  /** The recommendations: the tier, then throughput when progress is low, then collection
      when a cash factor leads the explanation. */
  function RecommendationsFor(percent: real, contributors: seq<Contribution>, request: CostRequest): (recs: seq<Recommendation>)
    ensures 1 <= |recs| <= 3 && recs[0] == TierRecommendation(percent)
    ensures IncreaseThroughput in recs <==> Given(request, ProgressRatio) && request.numbers[ProgressRatio] < 0.5
    ensures ImproveCollection in recs <==> CashLeads(contributors)
  {
    [TierRecommendation(percent)]
    + (if Given(request, ProgressRatio) && request.numbers[ProgressRatio] < 0.5 then [IncreaseThroughput] else [])
    + (if CashLeads(contributors) then [ImproveCollection] else [])
  }

  /** `_recommendations`. */
  method Recommendations(percent: real, contributors: seq<Contribution>, request: CostRequest)
    returns (recs: seq<Recommendation>)
    ensures recs == RecommendationsFor(percent, contributors, request)
  {
    if percent >= RiskHighThreshold {
      recs := [CostControlTaskForce];
    } else if percent >= RiskMediumThreshold {
      recs := [TightenProcurement];
    } else {
      recs := [MonthlyMonitoring];
    }
    if Given(request, ProgressRatio) && request.numbers[ProgressRatio] < 0.5 {
      recs := recs + [IncreaseThroughput];
    }
    var leading := if |contributors| < 2 then contributors else contributors[..2];
    var base := recs;
    for i := 0 to |leading|
      invariant forall j :: 0 <= j < i ==> !IsCashFactor(leading[j].feature)
      invariant recs == base
    {
      if IsCashFactor(leading[i].feature) {
        recs := recs + [ImproveCollection];
        assert leading[i] == contributors[i];
        return;
      }
    }
    assert !CashLeads(contributors) by {
      forall i | 0 <= i < |contributors| && i < 2 ensures !IsCashFactor(contributors[i].feature) {
        assert leading[i] == contributors[i];
      }
    }
  }

  /** One to three recommendations: first the tier, which matches the risk bucket, and at most
      one collection advice, always last. */
  lemma RecommendationsShape(percent: real, contributors: seq<Contribution>, request: CostRequest)
    ensures var recs := RecommendationsFor(percent, contributors, request);
      && 1 <= |recs| <= 3
      && (recs[0] == CostControlTaskForce <==> RiskBucket(percent) == High)
      && (recs[0] == TightenProcurement <==> RiskBucket(percent) == Medium)
      && (recs[0] == MonthlyMonitoring <==> RiskBucket(percent) == Low)
      && (ImproveCollection in recs <==> CashLeads(contributors))
      && (ImproveCollection in recs ==> recs[|recs| - 1] == ImproveCollection)
      && (forall i :: 0 <= i < |recs| - 1 ==> recs[i] != ImproveCollection)
  {
  }

  // ---------------------------------------------------------------- predictions

  datatype Intervals = Intervals(p10: real, expected: real, p90: real)

  datatype CostResponse = CostResponse(
    modelVersion: string,
    expectedOverrunPercent: real,
    predictedFinalCost: real,
    intervals: Intervals,
    costIntervals: Intervals,
    riskLevel: Risk,
    alerts: seq<Alert>,
    topContributors: seq<Contribution>,
    recommendations: seq<Recommendation>)

  /** One row of the prediction log. */
  datatype LoggedPrediction = LoggedPrediction(
    modelVersion: string,
    input: CostRequest,
    output: CostResponse,
    riskLevel: Risk,
    scenarioName: Option<string>,
    alerts: seq<Alert>)

  /** The cost after an overrun of `percent` per cent. */
  function CostAt(cost: real, percent: real): real
  {
    cost * (1.0 + percent / 100.0)
  }

  function ScenarioOf(request: CostRequest): Option<string>
  {
    if ScenarioName in request.texts then Some(request.texts[ScenarioName]) else None
  }

  /** The response for a request whose models predicted `expected`, `lower` and `upper` per
      cent and whose explanation is `contributors`. */
  function Response(version: string, request: CostRequest, expected: real, lower: real, upper: real,
                    contributors: seq<Contribution>): (r: CostResponse)
    requires FinalProjectCost in request.numbers
    ensures r.riskLevel == RiskBucket(r.expectedOverrunPercent)
    ensures forall a :: a in r.alerts <==> Raised(a, r.expectedOverrunPercent, request)
    ensures 1 <= |r.recommendations| <= 3 && r.recommendations[0] == TierRecommendation(r.expectedOverrunPercent)
  {
    var cost := request.numbers[FinalProjectCost];
    CostResponse(
      version, expected, CostAt(cost, expected),
      Intervals(lower, expected, upper),
      Intervals(CostAt(cost, lower), CostAt(cost, expected), CostAt(cost, upper)),
      RiskBucket(expected),
      RaisedAlerts(expected, request, AlertOrder),
      contributors,
      RecommendationsFor(expected, contributors, request))
  }

  /** The expected cost is the predicted final cost; the cost bounds are the percentage bounds
      applied to the project cost, and keep their order for a positive cost. */
  lemma CostIntervalsAgree(version: string, request: CostRequest, expected: real, lower: real, upper: real,
                           contributors: seq<Contribution>)
    requires FinalProjectCost in request.numbers
    ensures var r := Response(version, request, expected, lower, upper, contributors);
      var cost := request.numbers[FinalProjectCost];
      && r.costIntervals.expected == r.predictedFinalCost
      && r.predictedFinalCost == cost + cost * r.expectedOverrunPercent / 100.0
      && r.intervals.expected == r.expectedOverrunPercent
      && r.costIntervals.p10 == cost + cost * r.intervals.p10 / 100.0
      && r.costIntervals.p90 == cost + cost * r.intervals.p90 / 100.0
      && (cost > 0.0 && lower <= expected <= upper ==>
            r.costIntervals.p10 <= r.costIntervals.expected <= r.costIntervals.p90)
  {
    var cost := request.numbers[FinalProjectCost];
    if cost > 0.0 && lower <= expected <= upper {
      CostAtMonotone(cost, lower, expected);
      CostAtMonotone(cost, expected, upper);
    }
  }

  lemma CostAtMonotone(cost: real, p: real, q: real)
    requires cost > 0.0 && p <= q
    ensures CostAt(cost, p) <= CostAt(cost, q)
  {
    assert CostAt(cost, q) - CostAt(cost, p) == cost * ((q - p) / 100.0);
  }

  /** A validated request has a project cost. */
  predicate HasCost(request: CostRequest)
  {
    FinalProjectCost in request.numbers
  }

  /** The merged body of a scenario: the base request, overridden field by field, named. */
  function Merge(base: CostRequest, overrides: RawRequest, name: string): RawRequest
  {
    RawRequest(base.numbers + overrides.numbers, (base.texts + overrides.texts)[ScenarioName := name])
  }

  datatype Scenario = Scenario(name: string, overrides: RawRequest)

  datatype SimulationEntry = SimulationEntry(scenario: string, overrides: RawRequest, prediction: CostResponse)

  /** Why a prediction or a simulation stopped: the merged scenario failed the request schema,
      or the feature frame failed validation. */
  datatype Refusal = InvalidRequest(fields: seq<Key>) | InvalidFeatures(issues: seq<Issue>)

  class CostOverrunService {
    const modelVersion: string
    /** The feature frame of a request. */
    const frame: CostRequest -> Row
    /** The point model and the two quantile models, in per cent of overrun. */
    const expectedModel: Row -> real
    const lowerModel: Row -> real
    const upperModel: Row -> real
    /** The leading contributors of a prediction. */
    const explain: Row -> seq<Contribution>
    /** The prediction log. */
    var log: seq<LoggedPrediction>

    /** The frame holds numbers, or nothing, in every bounded column. */
    ghost predicate NumericFrames()
    {
      forall request :: BoundedAreNumbers(frame(request), NumericBounds)
    }

    constructor(version: string, frame: CostRequest -> Row, expectedModel: Row -> real,
                lowerModel: Row -> real, upperModel: Row -> real, explain: Row -> seq<Contribution>)
      requires forall request :: BoundedAreNumbers(frame(request), NumericBounds)
      ensures modelVersion == version && this.frame == frame && this.expectedModel == expectedModel
      ensures this.lowerModel == lowerModel && this.upperModel == upperModel && this.explain == explain
      ensures log == [] && NumericFrames()
    {
      modelVersion := version;
      this.frame := frame;
      this.expectedModel := expectedModel;
      this.lowerModel := lowerModel;
      this.upperModel := upperModel;
      this.explain := explain;
      log := [];
    }

    /** The response the models give for a request. */
    function Answer(request: CostRequest): (r: CostResponse)
      requires HasCost(request)
      ensures r.modelVersion == modelVersion
      ensures r.expectedOverrunPercent == expectedModel(frame(request))
      ensures r.intervals.p10 == lowerModel(frame(request)) && r.intervals.p90 == upperModel(frame(request))
      ensures forall a :: a in r.alerts <==> Raised(a, r.expectedOverrunPercent, request)
    {
      var row := frame(request);
      Response(modelVersion, request, expectedModel(row), lowerModel(row), upperModel(row), explain(row))
    }

    /** `predict`: refused with the validation issues when the frame is invalid, before any
        model is consulted; otherwise the response, logged only when `persist` holds. */
    method Predict(request: CostRequest, persist: bool) returns (r: Result<CostResponse, Refusal>)
      requires NumericFrames() && HasCost(request)
      modifies this
      ensures r.Err? <==> Issues(frame(request)) != []
      ensures r.Err? ==> r.error == InvalidFeatures(Issues(frame(request))) && log == old(log)
      ensures r.Ok? ==> r.value == Answer(request)
      ensures r.Ok? ==> log == old(log) + if persist then [Entry(request)] else []
    {
      var row := frame(request);
      var isValid, issues := Validate(row);
      if !isValid {
        return Err(InvalidFeatures(issues));
      }
      var expected := expectedModel(row);
      var lower := lowerModel(row);
      var upper := upperModel(row);
      var cost := request.numbers[FinalProjectCost];
      var finalCost := cost * (1.0 + expected / 100.0);
      var intervals := Intervals(lower, expected, upper);
      var costIntervals := Intervals(cost * (1.0 + lower / 100.0), finalCost, cost * (1.0 + upper / 100.0));
      var risk := RiskBucket(expected);
      var alerts := BuildAlerts(expected, request);
      var contributors := explain(row);
      var recommendations := Recommendations(expected, contributors, request);
      var response := CostResponse(modelVersion, expected, finalCost, intervals, costIntervals, risk,
                                   alerts, contributors, recommendations);
      if persist {
        log := log + [LoggedPrediction(modelVersion, request, response, risk, ScenarioOf(request), alerts)];
      }
      return Ok(response);
    }

    /** The log entry of a persisted prediction. */
    function Entry(request: CostRequest): LoggedPrediction
      requires HasCost(request)
    {
      var response := Answer(request);
      LoggedPrediction(modelVersion, request, response, response.riskLevel, ScenarioOf(request), response.alerts)
    }

    /** The entry of a scenario: its name, its overrides and the prediction for the base
        merged with them. */
    ghost predicate SimulatedAs(base: CostRequest, scenario: Scenario, entry: SimulationEntry)
    {
      && entry.scenario == scenario.name
      && entry.overrides == scenario.overrides
      && ScenarioRequest(base, scenario).Ok?
      && HasCost(ScenarioRequest(base, scenario).value)
      && entry.prediction == Answer(ScenarioRequest(base, scenario).value)
    }

    /** One step of `simulate`: validate the merged scenario, predict without logging. */
    method SimulateOne(base: CostRequest, scenario: Scenario) returns (r: Result<SimulationEntry, Refusal>)
      requires NumericFrames()
      modifies this
      ensures log == old(log)
      ensures r.Ok? ==> SimulatedAs(base, scenario, r.value)
    {
      var merged := Merge(base, scenario.overrides, scenario.name);
      var parsed := Parse(UnitsFirst, merged);
      if parsed.Err? {
        return Err(InvalidRequest(parsed.error));
      }
      ParsedPositive(UnitsFirst, merged, FinalProjectCost);
      var response := Predict(parsed.value, false);
      if response.Err? {
        return Err(response.error);
      }
      return Ok(SimulationEntry(scenario.name, scenario.overrides, response.value));
    }

    /** `simulate`: one entry per scenario, in order, each the prediction for the base merged
        with the scenario's overrides and name; nothing is logged. The first scenario that
        fails validation stops the simulation. */
    method Simulate(base: CostRequest, scenarios: seq<Scenario>) returns (r: Result<seq<SimulationEntry>, Refusal>)
      requires NumericFrames()
      modifies this
      ensures log == old(log)
      ensures r.Ok? ==> |r.value| == |scenarios|
      ensures r.Ok? ==> forall i :: 0 <= i < |scenarios| ==> SimulatedAs(base, scenarios[i], r.value[i])
    {
      var simulations: seq<SimulationEntry> := [];
      for i := 0 to |scenarios|
        invariant log == old(log)
        invariant |simulations| == i
        invariant forall j :: 0 <= j < i ==> SimulatedAs(base, scenarios[j], simulations[j])
      {
        var entry := SimulateOne(base, scenarios[i]);
        if entry.Err? {
          return Err(entry.error);
        }
        var done := simulations;
        simulations := simulations + [entry.value];
        forall j | 0 <= j < i + 1 ensures SimulatedAs(base, scenarios[j], simulations[j]) {
          if j < i {
            assert simulations[j] == done[j];
          }
        }
      }
      return Ok(simulations);
    }
  }

  /** The validated request of a scenario. */
  function ScenarioRequest(base: CostRequest, scenario: Scenario): Result<CostRequest, seq<Key>>
  {
    Parse(UnitsFirst, Merge(base, scenario.overrides, scenario.name))
  }

  /** In a scenario, an overridden number wins over the base, an untouched one is the base's,
      and the scenario's name is the request's scenario name. */
  lemma ScenarioOverrides(base: CostRequest, scenario: Scenario, k: Key)
    requires ScenarioRequest(base, scenario).Ok? && IsNumberField(k)
    ensures var request := ScenarioRequest(base, scenario).value;
      && (k in scenario.overrides.numbers ==>
            k in request.numbers && request.numbers[k] == scenario.overrides.numbers[k])
      && (k !in scenario.overrides.numbers && k in base.numbers ==>
            k in request.numbers && request.numbers[k] == base.numbers[k])
      && ScenarioOf(request) == Some(scenario.name)
  {
    var merged := Merge(base, scenario.overrides, scenario.name);
    if k in merged.numbers {
      PresentUnchanged(UnitsFirst, merged, k);
    }
  }
}
