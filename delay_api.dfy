/** The delay endpoints of the Flask back end, in its two copies: the current one
    (construction_projects_management/backend/app.py) and the older one (backend/app.py). Both
    have the same rules; they differ only in the wording of the recommendations (`Edition`).
    The model behind `predictor.predict_single` is a parameter. */
module DelayApi {
  import opened Values
  import opened Text

  /** Which copy of the back end. */
  datatype Edition = Current | Legacy

  /** A JSON value of a request body, with arrays and objects left opaque. */
  datatype Json = JNum(x: real) | JBool(b: bool) | JStr(s: string) | JNull | JArray | JObject

  /** A request body: a JSON object. */
  type Body = map<string, Json>

  /** What the predictor returns for one project. */
  datatype DelayResult = DelayResult(isDelayed: bool, delayProbability: real, predictedDelayDays: int, riskLevel: string)

  /** The predictor: a result, or the message of the exception it raised. */
  type Predictor = Body -> Result<DelayResult, string>

  // ---------------------------------------------------------------- recommendations

  /** The recommendations `generate_recommendations` can emit. */
  datatype Advice =
    | HighRisk | Workforce | CriticalPath
    | ModerateRisk | Bottlenecks
    | LowRisk
    | TimelineRevision(days: int) | CostEscalation

  /** The probability tier: three messages above 0.7, two above 0.4, one otherwise. */
  function Tier(prob: real): seq<Advice>
  {
    if prob > 0.7 then [HighRisk, Workforce, CriticalPath]
    else if prob > 0.4 then [ModerateRisk, Bottlenecks]
    else [LowRisk]
  }

  /** The two messages for a delay of more than 60 days. */
  function Escalation(days: int): seq<Advice>
  {
    if days > 60 then [TimelineRevision(days), CostEscalation] else []
  }

  /** The recommendations for a prediction: its tier, then its escalation. */
  function Advise(prob: real, days: int): seq<Advice>
  {
    Tier(prob) + Escalation(days)
  }

  /** The text of a recommendation in each copy of the back end. */
  function Wording(edition: Edition, a: Advice): string
  {
    if edition == Current then CurrentWording(a) else LegacyWording(a)
  }

  function CurrentWording(a: Advice): string
  {
    match a
    case HighRisk => "High delay risk detected - Immediate action required."
    case Workforce => "Consider increasing workforce allocation."
    case CriticalPath => "Review critical path activities."
    case ModerateRisk => "Moderate delay risk - Enhanced monitoring recommended."
    case Bottlenecks => "Identify potential bottlenecks early."
    case LowRisk => "Low delay risk - Continue normal monitoring."
    case TimelineRevision(days) => "Predicted delay of " + IntToString(days) + " days requires timeline revision."
    case CostEscalation => "Budget for potential cost escalations."
  }

  function LegacyWording(a: Advice): string
  {
    match a
    case HighRisk => "🚨 High delay risk detected - Immediate action required"
    case Workforce => "👥 Consider increasing workforce allocation"
    case CriticalPath => "📊 Review critical path activities"
    case ModerateRisk => "⚠️ Moderate delay risk - Enhanced monitoring recommended"
    case Bottlenecks => "🔍 Identify potential bottlenecks early"
    case LowRisk => "✅ Low delay risk - Continue normal monitoring"
    case TimelineRevision(days) => "📅 Predicted delay of " + IntToString(days) + " days requires timeline revision"
    case CostEscalation => "💰 Budget for potential cost escalations"
  }

  function Render(edition: Edition, advice: seq<Advice>): (texts: seq<string>)
    ensures |texts| == |advice|
    ensures forall i :: 0 <= i < |advice| ==> texts[i] == Wording(edition, advice[i])
  {
    seq(|advice|, i requires 0 <= i < |advice| => Wording(edition, advice[i]))
  }

  /** The recommendations of a prediction, as the response carries them. */
  function Recommendations(edition: Edition, prob: real, days: int): seq<string>
  {
    Render(edition, Advise(prob, days))
  }

  /** `generate_recommendations`: the tier's messages, then the escalation's, appended one by
      one. Each message is given by its kind; `Wording` gives its text in each copy. */
  method GenerateRecommendations(prob: real, days: int) returns (recommendations: seq<Advice>)
    ensures recommendations == Advise(prob, days)
  {
    recommendations := [];
    if prob > 0.7 {
      recommendations := recommendations + [HighRisk];
      recommendations := recommendations + [Workforce];
      recommendations := recommendations + [CriticalPath];
    } else if prob > 0.4 {
      recommendations := recommendations + [ModerateRisk];
      recommendations := recommendations + [Bottlenecks];
    } else {
      recommendations := recommendations + [LowRisk];
    }
    if days > 60 {
      recommendations := recommendations + [TimelineRevision(days)];
      recommendations := recommendations + [CostEscalation];
    }
  }

  /** The tier's headline comes first, and it is the high, moderate or low one exactly as the
      probability is above 0.7, in (0.4, 0.7], or at most 0.4. */
  lemma OneTier(prob: real, days: int)
    ensures Advise(prob, days)[0] == HighRisk <==> prob > 0.7
    ensures Advise(prob, days)[0] == ModerateRisk <==> 0.4 < prob <= 0.7
    ensures Advise(prob, days)[0] == LowRisk <==> prob <= 0.4
  {
  }

  /** There are 3, 2 or 1 tier messages, plus two more exactly when the delay exceeds 60 days. */
  lemma AdviceCount(prob: real, days: int)
    ensures |Advise(prob, days)| ==
      (if prob > 0.7 then 3 else if prob > 0.4 then 2 else 1) + (if days > 60 then 2 else 0)
  {
  }

  /** The escalation messages close the list exactly when the delay exceeds 60 days, and no
      other message mentions a timeline revision. */
  lemma EscalationIffLongDelay(prob: real, days: int)
    ensures var a := Advise(prob, days);
      (exists i :: 0 <= i < |a| && a[i].TimelineRevision?) <==> days > 60
    ensures var a := Advise(prob, days);
      days > 60 ==> a[|a| - 2..] == [TimelineRevision(days), CostEscalation]
  {
    var a := Advise(prob, days);
    if days > 60 {
      assert a[|a| - 2].TimelineRevision?;
    } else {
      assert a == Tier(prob);
    }
  }

  /** The confidence label: "High" when the probability is above 0.7 or below 0.3. */
  function ConfidenceLabel(prob: real): (confidence: string)
    ensures confidence == "High" <==> prob > 0.7 || prob < 0.3
    ensures confidence == "High" || confidence == "Medium"
  {
    if prob > 0.7 || prob < 0.3 then "High" else "Medium"
  }

  // ---------------------------------------------------------------- the single-project endpoint

  const RequiredFieldNames: seq<string> :=
    ["final_project_cost", "totalunits", "planned_duration_days", "final_project_type", "promotertype", "districttype"]

  /** `[f for f in fields if f not in data]`: the fields the body lacks, in the fields' order. */
  function Missing(fields: seq<string>, body: Body): (m: seq<string>)
    ensures forall f :: f in m <==> f in fields && f !in body
    ensures IsSubsequence(m, fields)
  {
    if fields == [] then []
    else if fields[0] !in body then [fields[0]] + Missing(fields[1..], body)
    else Missing(fields[1..], body)
  }

  function MissingFields(body: Body): seq<string>
  {
    Missing(RequiredFieldNames, body)
  }

  /** `", ".join(parts)`. */
  function JoinComma(parts: seq<string>): string
  {
    if |parts| == 0 then "" else if |parts| == 1 then parts[0] else parts[0] + ", " + JoinComma(parts[1..])
  }

  /** The prediction part of a successful response. */
  datatype Prediction = Prediction(isDelayed: bool, delayProbability: real, predictedDelayDays: int,
                                   riskLevel: string, confidence: string)

  /** Why the endpoint answered 500. */
  datatype Failure = ModelsNotLoaded | DebugFormatFailed | PredictorFailed(message: string)

  /** The endpoint's answer: 200 with the prediction, 400 with a message, or 500. */
  datatype Reply =
    | Predicted(prediction: Prediction, recommendations: seq<string>)
    | BadRequest(error: string)
    | ServerError(failure: Failure)

  /** From the required-field check on, as both versions below do it. */
  function CheckAndPredict(edition: Edition, predict: Predictor, body: Body): (r: Reply)
    ensures r.BadRequest? <==> MissingFields(body) != []
    ensures r.ServerError? <==> MissingFields(body) == [] && predict(body).Err?
    ensures r.ServerError? ==> r.failure == PredictorFailed(predict(body).error)
    ensures r.Predicted? ==> r.prediction.confidence == ConfidenceLabel(r.prediction.delayProbability)
  {
    var missing := MissingFields(body);
    if missing != [] then BadRequest("Missing required fields: " + JoinComma(missing))
    else
      match predict(body)
      case Err(message) => ServerError(PredictorFailed(message))
      case Ok(r) =>
        Predicted(Prediction(r.isDelayed, r.delayProbability, r.predictedDelayDays, r.riskLevel,
                             ConfidenceLabel(r.delayProbability)),
                  Recommendations(edition, r.delayProbability, r.predictedDelayDays))
  }

  /** A value the debug prints can format: `f"{v:,}"` and `f"{v*100:.1f}"` accept a number
      (a bool is one in Python) and raise on None, a string, a list or a dict. */
  predicate Formattable(body: Body, name: string)
  {
    name in body && (body[name].JNum? || body[name].JBool?)
  }

  /** `predict_delay` as written: the debug prints format the project cost and the progress
      ratio before the body is checked at all, and any exception they raise ends in the
      handler's 500. `request` is None when the JSON body is null. */
  function PredictDelayAsWritten(edition: Edition, predictor: Option<Predictor>, request: Option<Body>): (r: Reply)
    ensures !r.ServerError? ==> r == PredictDelay(edition, predictor, request)
  {
    if predictor.None? then ServerError(ModelsNotLoaded)
    else if request.None? then ServerError(DebugFormatFailed)
    else if !Formattable(request.value, "final_project_cost") || !Formattable(request.value, "progress_ratio") then
      ServerError(DebugFormatFailed)
    else if request.value == map[] then BadRequest("No input data provided")
    else CheckAndPredict(edition, predictor.value, request.value)
  }

  /** `predict_delay` with the debug prints removed: an empty body is refused, then a body
      lacking a required field, and only then is the predictor called. */
  function PredictDelay(edition: Edition, predictor: Option<Predictor>, request: Option<Body>): (r: Reply)
    ensures predictor.Some? && (request.None? || request.value == map[]) ==> r == BadRequest("No input data provided")
    ensures r.ServerError? ==> r.failure == ModelsNotLoaded || r.failure.PredictorFailed?
  {
    if predictor.None? then ServerError(ModelsNotLoaded)
    else if request.None? || request.value == map[] then BadRequest("No input data provided")
    else CheckAndPredict(edition, predictor.value, request.value)
  }

  /** As written, the "no input data" answer is never given, and a body without a numeric
      project cost, or without a numeric progress ratio (a field that is not even required),
      gets a 500 instead of the missing-field 400 or a prediction. */
  lemma DebugPrintsMaskChecks(edition: Edition, predict: Predictor, body: Body)
    ensures PredictDelayAsWritten(edition, Some(predict), Some(body)) != BadRequest("No input data provided")
    ensures !Formattable(body, "final_project_cost") || !Formattable(body, "progress_ratio") ==>
      PredictDelayAsWritten(edition, Some(predict), Some(body)) == ServerError(DebugFormatFailed)
  {
    if Formattable(body, "final_project_cost") {
      assert "final_project_cost" in body;
    }
  }

  /** For instance, a body holding only a progress ratio: as written it gets a 500; without the
      prints it is refused for lacking every required field, the project cost first. */
  lemma MissingCostExample(edition: Edition, predict: Predictor)
    ensures var body := map["progress_ratio" := JNum(0.5)];
      && PredictDelayAsWritten(edition, Some(predict), Some(body)) == ServerError(DebugFormatFailed)
      && PredictDelay(edition, Some(predict), Some(body)).BadRequest?
      && MissingFields(body)[0] == "final_project_cost"
  {
    var body := map["progress_ratio" := JNum(0.5)];
    assert "final_project_cost" !in body;
    assert MissingFields(body)[0] == "final_project_cost";
  }

  /** Without the prints: the predictor is called exactly when the body is non-empty and has
      every required field; otherwise the answer is a 400 naming what is missing, the first
      missing field in declared order first. */
  lemma ChecksBeforePrediction(edition: Edition, predict: Predictor, body: Body)
    requires body != map[]
    ensures var reply := PredictDelay(edition, Some(predict), Some(body));
      && (reply.BadRequest? <==> exists f :: f in RequiredFieldNames && f !in body)
      && (reply.BadRequest? ==> reply.error == "Missing required fields: " + JoinComma(MissingFields(body)))
  {
    var missing := MissingFields(body);
    if missing != [] {
      assert missing[0] in missing;
    }
    if exists f :: f in RequiredFieldNames && f !in body {
      var f :| f in RequiredFieldNames && f !in body;
      assert f in missing;
    }
  }

  /** A successful reply carries the predictor's figures, the confidence label of its
      probability and the recommendations for it. */
  lemma PredictionReply(edition: Edition, predict: Predictor, body: Body)
    requires body != map[] && MissingFields(body) == [] && predict(body).Ok?
    ensures var r := predict(body).value;
      PredictDelay(edition, Some(predict), Some(body)) ==
        Predicted(Prediction(r.isDelayed, r.delayProbability, r.predictedDelayDays, r.riskLevel,
                             ConfidenceLabel(r.delayProbability)),
                  Recommendations(edition, r.delayProbability, r.predictedDelayDays))
  {
  }

  // ---------------------------------------------------------------- the batch endpoint

  /** One entry of a batch answer. */
  datatype BatchEntry =
    | BatchPrediction(projectId: Json, isDelayed: bool, delayProbability: real, predictedDelayDays: int, riskLevel: string)
    | BatchError(projectId: Json, error: string)

  datatype BatchReply = Batch(predictions: seq<BatchEntry>) | BatchBadRequest(error: string) | BatchServerError(failure: Failure)

  /** `project.get('project_id', 'unknown')`. */
  function ProjectId(project: Body): Json
  {
    if "project_id" in project then project["project_id"] else JStr("unknown")
  }

  /** The entry for one project: its prediction, or the predictor's error, under its id. */
  function EntryFor(predict: Predictor, project: Body): (e: BatchEntry)
    ensures e.projectId == ProjectId(project)
    ensures e.BatchError? <==> predict(project).Err?
  {
    match predict(project)
    case Ok(r) => BatchPrediction(ProjectId(project), r.isDelayed, r.delayProbability, r.predictedDelayDays, r.riskLevel)
    case Err(message) => BatchError(ProjectId(project), message)
  }

  /** `predict_batch` over the request's list of projects: an empty list is refused; otherwise one
      entry per project, in order, a failing project giving an error entry and the loop going on. */
  method PredictBatch(predictor: Option<Predictor>, projects: seq<Body>) returns (reply: BatchReply)
    ensures predictor.None? ==> reply == BatchServerError(ModelsNotLoaded)
    ensures predictor.Some? && projects == [] ==> reply == BatchBadRequest("No projects provided")
    ensures predictor.Some? && projects != [] ==>
      && reply.Batch? && |reply.predictions| == |projects|
      && forall i :: 0 <= i < |projects| ==> reply.predictions[i] == EntryFor(predictor.value, projects[i])
  {
    if predictor.None? {
      return BatchServerError(ModelsNotLoaded);
    }
    if projects == [] {
      return BatchBadRequest("No projects provided");
    }
    var predict := predictor.value;
    var results: seq<BatchEntry> := [];
    for i := 0 to |projects|
      invariant |results| == i
      invariant forall j :: 0 <= j < i ==> results[j] == EntryFor(predict, projects[j])
    {
      var entry;
      match predict(projects[i]) {
        case Ok(r) =>
          entry := BatchPrediction(ProjectId(projects[i]), r.isDelayed, r.delayProbability, r.predictedDelayDays, r.riskLevel);
        case Err(message) =>
          entry := BatchError(ProjectId(projects[i]), message);
      }
      results := results + [entry];
    }
    reply := Batch(results);
  }
}
