/** The chat assistant's result formatter (`displayPredictionResult` in ChatBot.jsx), producing
    the report as a list of structured blocks rather than markdown text. */
module ChatReport {
  import opened Values
  import opened ChatFields

  datatype DelayPrediction = DelayPrediction(
    isDelayed: bool, delayProbability: real, predictedDelayDays: real, riskLevel: string, confidence: string)

  /** Overrun percentages at the three bands. */
  datatype Intervals = Intervals(p10: real, expected: real, p90: real)

  /** Costs at the three bands; any of them may be missing. */
  datatype CostIntervals = CostIntervals(p10: Option<real>, expected: Option<real>, p90: Option<real>)

  datatype CostPrediction = CostPrediction(
    expectedOverrunPercent: real, predictedFinalCost: real, riskLevel: string,
    intervals: Option<Intervals>, costIntervals: Option<CostIntervals>,
    alerts: Option<seq<string>>, recommendations: Option<seq<string>>)

  /** A successful answer of the delay endpoint (recommendations beside the prediction) or of the
      cost-overrun endpoint (recommendations and alerts inside it). */
  datatype Response =
    | DelayResponse(prediction: DelayPrediction, recommendations: Option<seq<string>>)
    | CostResponse(costPrediction: CostPrediction)

  datatype Glyph = Red | Yellow | Green

  datatype Band = P10 | P50 | P90

  datatype Section = AlertsSection | RecommendationsSection

  datatype Block =
    | DelayTitle
    | CostTitle
    | DelayStatus(delayed: bool)
    | Probability(percent: real)
    | PredictedDelay(days: real, unit: string)
    | Risk(glyph: Glyph, level: string)
    | Confidence(confidence: string)
    /** The delay lines as they read when the answer lacks the delay figures: the probability
        prints as NaN, the delay and the confidence as undefined. */
    | ProbabilityNaN
    | PredictedDelayUndefined
    | ConfidenceUndefined
    | ExpectedOverrun(sign: string, percent: real)
    | FinalCost(amount: real)
    | IntervalsHeading
    | IntervalLine(band: Band, percent: real, amount: real)
    | SectionHeading(section: Section)
    | Item(number: int, text: string)

  /** Red exactly for "High", yellow exactly for "Medium", green for any other level. */
  function RiskGlyph(level: string): (g: Glyph)
    ensures g == Red <==> level == "High"
    ensures g == Yellow <==> level == "Medium"
  {
    if level == "High" then Red else if level == "Medium" then Yellow else Green
  }

  function DayUnit(days: real): string
  {
    if days == 1.0 then "day" else "days"
  }

  function Sign(percent: real): string
  {
    if percent > 0.0 then "+" else ""
  }

  /** `list || []`: a missing list reads as empty. */
  function OrEmpty(list: Option<seq<string>>): seq<string>
  {
    if list.Some? then list.value else []
  }

  /** `amount || fallback`: a missing or zero amount reads as the fallback. */
  function OrElse(amount: Option<real>, fallback: real): real
  {
    if amount.Some? && amount.value != 0.0 then amount.value else fallback
  }

  function Numbered(items: seq<string>): seq<Block>
  {
    seq(|items|, i requires 0 <= i < |items| => Item(i + 1, items[i]))
  }

  /** A headed, numbered list, or nothing for an empty list. */
  function SectionBlocks(section: Section, items: seq<string>): (blocks: seq<Block>)
    ensures |blocks| == if |items| > 0 then |items| + 1 else 0
  {
    if |items| > 0 then [SectionHeading(section)] + Numbered(items) else []
  }

  function DelayHeader(prediction: DelayPrediction): seq<Block>
  {
    [ DelayTitle,
      DelayStatus(prediction.isDelayed),
      Probability(prediction.delayProbability * 100.0),
      PredictedDelay(prediction.predictedDelayDays, DayUnit(prediction.predictedDelayDays)),
      Risk(RiskGlyph(prediction.riskLevel), prediction.riskLevel),
      Confidence(prediction.confidence) ]
  }

  function DelayReport(prediction: DelayPrediction, recommendations: Option<seq<string>>): (r: seq<Block>)
    ensures |r| == 6 + if |OrEmpty(recommendations)| > 0 then |OrEmpty(recommendations)| + 1 else 0
    ensures r[0] == DelayTitle
  {
    DelayHeader(prediction) + SectionBlocks(RecommendationsSection, OrEmpty(recommendations))
  }

  /** The delay report read from a cost-overrun prediction: `is_delayed` is missing and so
      falsy, the three figures print as NaN or undefined, the risk level is the cost prediction's
      own, and `data.recommendations` is missing, so no list follows. */
  function MisreadDelayReport(prediction: CostPrediction): (r: seq<Block>)
    ensures |r| == 6 && r[0] == DelayTitle
  {
    [ DelayTitle,
      DelayStatus(false),
      ProbabilityNaN,
      PredictedDelayUndefined,
      Risk(RiskGlyph(prediction.riskLevel), prediction.riskLevel),
      ConfidenceUndefined ]
  }

  function IntervalBlocks(prediction: CostPrediction): (r: seq<Block>)
    ensures |r| == if prediction.intervals.Some? then 4 else 0
    ensures forall i :: 1 <= i < |r| ==>
      (r[i].IntervalLine? && r[i].percent in
         {prediction.intervals.value.p10, prediction.intervals.value.expected, prediction.intervals.value.p90})
  {
    if prediction.intervals.None? then []
    else
      var bands := prediction.intervals.value;
      var costs := if prediction.costIntervals.Some? then prediction.costIntervals.value else CostIntervals(None, None, None);
      [ IntervalsHeading,
        IntervalLine(P10, bands.p10, OrElse(costs.p10, 0.0)),
        IntervalLine(P50, bands.expected, OrElse(costs.expected, prediction.predictedFinalCost)),
        IntervalLine(P90, bands.p90, OrElse(costs.p90, 0.0)) ]
  }

  function CostHeader(prediction: CostPrediction): seq<Block>
  {
    [ CostTitle,
      ExpectedOverrun(Sign(prediction.expectedOverrunPercent), prediction.expectedOverrunPercent),
      FinalCost(prediction.predictedFinalCost),
      Risk(RiskGlyph(prediction.riskLevel), prediction.riskLevel) ]
  }

  /** Alerts, then recommendations. */
  function CostSections(prediction: CostPrediction): seq<Block>
  {
    SectionBlocks(AlertsSection, OrEmpty(prediction.alerts))
    + SectionBlocks(RecommendationsSection, OrEmpty(prediction.recommendations))
  }

  function CostReport(prediction: CostPrediction): (r: seq<Block>)
    ensures |r| == 4 + (if prediction.intervals.Some? then 4 else 0)
      + (if |OrEmpty(prediction.alerts)| > 0 then |OrEmpty(prediction.alerts)| + 1 else 0)
      + (if |OrEmpty(prediction.recommendations)| > 0 then |OrEmpty(prediction.recommendations)| + 1 else 0)
    ensures r[0] == CostTitle
  {
    CostHeader(prediction) + IntervalBlocks(prediction) + CostSections(prediction)
  }

  /** The answer has the shape of the endpoint the session's mode selects. */
  predicate Matches(mode: Option<Mode>, response: Response)
  {
    (mode == Some(Delay)) == response.DelayResponse?
  }

  /** Building the report does not throw: the delay branch reads missing fields as undefined
      without failing, while the cost branch calls `toFixed` on the expected overrun, which a
      delay answer lacks. */
  predicate Renders(mode: Option<Mode>, response: Response)
  {
    mode == Some(Delay) || response.CostResponse?
  }

  /** The report for the session's mode. */
  function Report(mode: Option<Mode>, response: Response): (r: seq<Block>)
    requires Renders(mode, response)
    ensures |r| >= 4
    ensures r[0] == if mode == Some(Delay) then DelayTitle else CostTitle
  {
    if mode == Some(Delay) then
      if response.DelayResponse? then DelayReport(response.prediction, response.recommendations)
      else MisreadDelayReport(response.costPrediction)
    else CostReport(response.costPrediction)
  }

  /** `items.forEach((item, idx) => text += `${idx + 1}. ${item}`)`: the items numbered from 1,
      in order. */
  method NumberItems(items: seq<string>) returns (blocks: seq<Block>)
    ensures |blocks| == |items|
    ensures forall i :: 0 <= i < |items| ==> blocks[i] == Item(i + 1, items[i])
    ensures blocks == Numbered(items)
  {
    blocks := [];
    var idx := 0;
    while idx < |items|
      invariant 0 <= idx <= |items|
      invariant |blocks| == idx
      invariant forall i :: 0 <= i < idx ==> blocks[i] == Item(i + 1, items[i])
    {
      blocks := blocks + [Item(idx + 1, items[idx])];
      idx := idx + 1;
    }
    assert blocks == Numbered(items);
  }

  method AppendSection(blocks: seq<Block>, section: Section, items: seq<string>) returns (out: seq<Block>)
    ensures out == blocks + SectionBlocks(section, items)
  {
    out := blocks;
    if |items| > 0 {
      var numbered := NumberItems(items);
      out := out + [SectionHeading(section)] + numbered;
      assert out == blocks + ([SectionHeading(section)] + Numbered(items));
    }
  }

  /** `displayPredictionResult`, building the report block by block. */
  method BuildReport(mode: Option<Mode>, response: Response) returns (blocks: seq<Block>)
    requires Renders(mode, response)
    ensures blocks == Report(mode, response)
  {
    if mode == Some(Delay) && response.CostResponse? {
      var pred := response.costPrediction;
      var riskColor := RiskGlyph(pred.riskLevel);
      blocks := [DelayTitle];
      blocks := blocks + [DelayStatus(false)];
      blocks := blocks + [ProbabilityNaN];
      blocks := blocks + [PredictedDelayUndefined];
      blocks := blocks + [Risk(riskColor, pred.riskLevel)];
      blocks := blocks + [ConfidenceUndefined];
    } else if mode == Some(Delay) {
      var pred := response.prediction;
      var recommendations := OrEmpty(response.recommendations);
      var riskColor := RiskGlyph(pred.riskLevel);
      blocks := [DelayTitle];
      blocks := blocks + [DelayStatus(pred.isDelayed)];
      blocks := blocks + [Probability(pred.delayProbability * 100.0)];
      blocks := blocks + [PredictedDelay(pred.predictedDelayDays, DayUnit(pred.predictedDelayDays))];
      blocks := blocks + [Risk(riskColor, pred.riskLevel)];
      blocks := blocks + [Confidence(pred.confidence)];
      blocks := AppendSection(blocks, RecommendationsSection, recommendations);
    } else {
      var pred := response.costPrediction;
      var recommendations := OrEmpty(pred.recommendations);
      var alerts := OrEmpty(pred.alerts);
      var riskColor := RiskGlyph(pred.riskLevel);
      blocks := [CostTitle];
      blocks := blocks + [ExpectedOverrun(Sign(pred.expectedOverrunPercent), pred.expectedOverrunPercent)];
      blocks := blocks + [FinalCost(pred.predictedFinalCost)];
      blocks := blocks + [Risk(riskColor, pred.riskLevel)];
      blocks := blocks + IntervalBlocks(pred);
      blocks := AppendSection(blocks, AlertsSection, alerts);
      blocks := AppendSection(blocks, RecommendationsSection, recommendations);
    }
  }

  // ---------------------------------------------------------------- what a report shows

  function RiskLevel(response: Response): string
  {
    if response.DelayResponse? then response.prediction.riskLevel else response.costPrediction.riskLevel
  }

  /** The recommendations of an answer, wherever the endpoint puts them. */
  function RecommendationsOf(response: Response): seq<string>
  {
    if response.DelayResponse? then OrEmpty(response.recommendations)
    else OrEmpty(response.costPrediction.recommendations)
  }

  /** The alerts of an answer; the delay endpoint sends none. */
  function AlertsOf(response: Response): seq<string>
  {
    if response.DelayResponse? then [] else OrEmpty(response.costPrediction.alerts)
  }

  /** The blocks that follow the fixed header lines. */
  predicate TailBlock(b: Block)
  {
    b.IntervalsHeading? || b.IntervalLine? || b.SectionHeading? || b.Item?
  }

  lemma NumberedItemsOnly(items: seq<string>)
    ensures forall b :: b in Numbered(items) ==> b.Item?
  {
    forall b | b in Numbered(items) ensures b.Item? {
      var i :| 0 <= i < |Numbered(items)| && Numbered(items)[i] == b;
    }
  }

  lemma SectionContents(section: Section, items: seq<string>)
    ensures forall b :: b in SectionBlocks(section, items) ==> b.SectionHeading? || b.Item?
    ensures forall b :: b in SectionBlocks(section, items) && b.SectionHeading? ==> b.section == section
    ensures SectionHeading(section) in SectionBlocks(section, items) <==> |items| > 0
    ensures forall n, t :: Item(n, t) in SectionBlocks(section, items) <==> 1 <= n <= |items| && items[n - 1] == t
  {
    var s := SectionBlocks(section, items);
    NumberedItemsOnly(items);
    forall n, t ensures Item(n, t) in s <==> 1 <= n <= |items| && items[n - 1] == t {
      if Item(n, t) in s {
        assert Item(n, t) in Numbered(items);
        var i :| 0 <= i < |Numbered(items)| && Numbered(items)[i] == Item(n, t);
      }
      if 1 <= n <= |items| && items[n - 1] == t {
        assert s[n] == Item(n, t);
      }
    }
  }

  /** Interval lines, section headings and items: what a report has besides its header. */
  lemma TailOfReport(mode: Option<Mode>, response: Response)
    requires Matches(mode, response)
    ensures Report(mode, response) ==
      (if mode == Some(Delay) then DelayHeader(response.prediction) else CostHeader(response.costPrediction))
      + Tail(mode, response)
    ensures forall b :: b in Tail(mode, response) ==> TailBlock(b)
    ensures forall b :: b in Tail(mode, response) && b.SectionHeading? ==>
      (b.section == RecommendationsSection && |RecommendationsOf(response)| > 0) ||
      (b.section == AlertsSection && |AlertsOf(response)| > 0)
  {
    SectionContents(RecommendationsSection, RecommendationsOf(response));
    if mode != Some(Delay) {
      var p := response.costPrediction;
      SectionContents(AlertsSection, AlertsOf(response));
      assert CostReport(p) == CostHeader(p) + (IntervalBlocks(p) + CostSections(p));
    }
  }

  function Tail(mode: Option<Mode>, response: Response): seq<Block>
    requires Matches(mode, response)
  {
    if mode == Some(Delay) then SectionBlocks(RecommendationsSection, RecommendationsOf(response))
    else IntervalBlocks(response.costPrediction) + CostSections(response.costPrediction)
  }

  /** The report has one risk line: the answer's level with its glyph. */
  lemma RiskLineShown(mode: Option<Mode>, response: Response, glyph: Glyph, level: string)
    requires Renders(mode, response)
    ensures Risk(glyph, level) in Report(mode, response) <==>
      level == RiskLevel(response) && glyph == RiskGlyph(level)
  {
    if !Matches(mode, response) {
      HeaderRisk(MisreadDelayReport(response.costPrediction), 4, glyph, level);
      return;
    }
    TailOfReport(mode, response);
    var l := RiskLevel(response);
    var h := if mode == Some(Delay) then DelayHeader(response.prediction) else CostHeader(response.costPrediction);
    HeaderRisk(h, if mode == Some(Delay) then 4 else 3, glyph, level);
    assert Risk(glyph, level) !in Tail(mode, response);
  }

  lemma HeaderRisk(h: seq<Block>, i: nat, glyph: Glyph, level: string)
    requires i < |h| && h[i].Risk?
    requires forall j :: 0 <= j < |h| && j != i ==> !h[j].Risk?
    ensures Risk(glyph, level) in h <==> h[i] == Risk(glyph, level)
  {
  }

  /** The delay line says "day" exactly for a one-day delay, "days" otherwise. */
  lemma DelayUnitShown(prediction: DelayPrediction, recommendations: Option<seq<string>>, days: real)
    ensures PredictedDelay(days, "day") in DelayReport(prediction, recommendations) <==>
      days == prediction.predictedDelayDays && days == 1.0
    ensures PredictedDelay(days, "days") in DelayReport(prediction, recommendations) <==>
      days == prediction.predictedDelayDays && days != 1.0
  {
    TailOfReport(Some(Delay), DelayResponse(prediction, recommendations));
    var h := DelayHeader(prediction);
    assert h[3] == PredictedDelay(prediction.predictedDelayDays, DayUnit(prediction.predictedDelayDays));
  }

  /** The expected overrun carries a "+" exactly when it is positive. */
  lemma OverrunSignShown(prediction: CostPrediction, percent: real)
    ensures ExpectedOverrun("+", percent) in CostReport(prediction) <==>
      percent == prediction.expectedOverrunPercent && percent > 0.0
    ensures ExpectedOverrun("", percent) in CostReport(prediction) <==>
      percent == prediction.expectedOverrunPercent && percent <= 0.0
  {
    TailOfReport(Some(CostOverrun), CostResponse(prediction));
    var h := CostHeader(prediction);
    assert h[1] == ExpectedOverrun(Sign(prediction.expectedOverrunPercent), prediction.expectedOverrunPercent);
  }

  /** A section appears exactly when its list is non-empty; the delay report has no alerts. */
  lemma SectionsShownIffNonEmpty(mode: Option<Mode>, response: Response)
    requires Matches(mode, response)
    ensures SectionHeading(RecommendationsSection) in Report(mode, response) <==> |RecommendationsOf(response)| > 0
    ensures SectionHeading(AlertsSection) in Report(mode, response) <==> |AlertsOf(response)| > 0
  {
    TailOfReport(mode, response);
    SectionContents(RecommendationsSection, RecommendationsOf(response));
    if mode != Some(Delay) {
      SectionContents(AlertsSection, AlertsOf(response));
    }
  }

  /** Every list item is shown numbered from 1 in list order, and every numbered line is one of
      them. */
  lemma ItemsNumberedFromOne(mode: Option<Mode>, response: Response, n: int, t: string)
    requires Matches(mode, response)
    ensures Item(n, t) in Report(mode, response) <==>
      (1 <= n <= |RecommendationsOf(response)| && RecommendationsOf(response)[n - 1] == t) ||
      (1 <= n <= |AlertsOf(response)| && AlertsOf(response)[n - 1] == t)
  {
    TailOfReport(mode, response);
    var h := if mode == Some(Delay) then DelayHeader(response.prediction) else CostHeader(response.costPrediction);
    assert Item(n, t) !in h;
    ItemsInTail(mode, response, n, t);
  }

  lemma ItemsInTail(mode: Option<Mode>, response: Response, n: int, t: string)
    requires Matches(mode, response)
    ensures Item(n, t) in Tail(mode, response) <==>
      (1 <= n <= |RecommendationsOf(response)| && RecommendationsOf(response)[n - 1] == t) ||
      (1 <= n <= |AlertsOf(response)| && AlertsOf(response)[n - 1] == t)
  {
    SectionContents(RecommendationsSection, RecommendationsOf(response));
    if mode != Some(Delay) {
      var p := response.costPrediction;
      SectionContents(AlertsSection, AlertsOf(response));
      assert Item(n, t) !in IntervalBlocks(p);
    }
  }

  /** The interval lines appear exactly when the answer has overrun intervals; when the answer
      has no cost intervals the lines show 0 at the outer bands and the predicted final cost at
      the middle one. */
  lemma IntervalsShown(prediction: CostPrediction)
    ensures IntervalsHeading in CostReport(prediction) <==> prediction.intervals.Some?
    ensures prediction.intervals.Some? && prediction.costIntervals.None? ==>
      IntervalLine(P10, prediction.intervals.value.p10, 0.0) in CostReport(prediction) &&
      IntervalLine(P50, prediction.intervals.value.expected, prediction.predictedFinalCost) in CostReport(prediction) &&
      IntervalLine(P90, prediction.intervals.value.p90, 0.0) in CostReport(prediction)
  {
    SectionContents(AlertsSection, OrEmpty(prediction.alerts));
    SectionContents(RecommendationsSection, OrEmpty(prediction.recommendations));
    var iv := IntervalBlocks(prediction);
    assert CostReport(prediction) == CostHeader(prediction) + iv + CostSections(prediction);
    if prediction.intervals.Some? {
      assert iv[0] == IntervalsHeading;
    }
  }

  /** A cost-overrun answer in the delay conversation gets the delay report with no figures:
      it reads as on time, keeps the answer's risk level, and shows none of the answer's
      alerts or recommendations. */
  lemma CostAnswerInDelayMode(prediction: CostPrediction)
    ensures var r := Report(Some(Delay), CostResponse(prediction));
      && DelayStatus(false) in r && DelayStatus(true) !in r
      && (forall x :: Probability(x) !in r)
      && (forall b :: b in r ==> !b.Item? && !b.SectionHeading? && !b.IntervalLine?)
      && Risk(RiskGlyph(prediction.riskLevel), prediction.riskLevel) in r
  {
    var r := MisreadDelayReport(prediction);
    assert r[1] == DelayStatus(false) && r[4] == Risk(RiskGlyph(prediction.riskLevel), prediction.riskLevel);
  }
}
