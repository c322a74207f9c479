/** Values shared by the front end and the back end: optional and fallible results, the
    JavaScript/JSON values a payload field can hold, and the names of the payload fields. */
module Values {

  datatype Option<+T> = None | Some(value: T)

  datatype Result<+T, +E> = Ok(value: T) | Err(error: E)

  /** A value as it appears in a payload. `NaN` is what JavaScript arithmetic on a missing
      number yields; `Null` is JSON null (Python None). */
  datatype Value = Num(x: real) | Str(s: string) | NaN | Null

  /** JavaScript truthiness of a value: 0, "", NaN and null are falsy. */
  predicate IsTruthy(v: Value)
  {
    match v
    case Num(x) => x != 0.0
    case Str(s) => s != ""
    case NaN => false
    case Null => false
  }

  /** The payload fields that the prediction forms, the chat assistant and the cost schema use. */
  datatype Key =
    | FinalProjectCost | TotalUnits | PlannedDurationDays
    | FinalProjectType | PromoterType | DistrictType
    | TotalIncurredCost | TotalLandCost | BudgetOverrunPercent | ProgressRatio | BookedUnits
    | LandUtilization | ActualDurationDays | AvgTemp | TotalRain | TotalSquareFootBuild
    | TotalSellingAmount | TotalPayableAmountGovernment | TotalDevelopCost
    | TotalReceivedAmount | BookedSellingAmount
    | ProjectDurationPlannedDays | ScenarioName

  /** The field's name on the wire. */
  function Name(k: Key): string
  {
    match k
    case FinalProjectCost => "final_project_cost"
    case TotalUnits => "totalunits"
    case PlannedDurationDays => "planned_duration_days"
    case FinalProjectType => "final_project_type"
    case PromoterType => "promotertype"
    case DistrictType => "districttype"
    case TotalIncurredCost => "totalincurredcost"
    case TotalLandCost => "totallandcost"
    case BudgetOverrunPercent => "budget_overrun_percent"
    case ProgressRatio => "progress_ratio"
    case BookedUnits => "bookedunits"
    case LandUtilization => "land_utilization"
    case ActualDurationDays => "actual_duration_days"
    case AvgTemp => "avg_temp"
    case TotalRain => "total_rain"
    case TotalSquareFootBuild => "totalsquarefootbuild"
    case TotalSellingAmount => "totalsellingamount"
    case TotalPayableAmountGovernment => "totalpayableamountgovernment"
    case TotalDevelopCost => "totaldevelopcost"
    case TotalReceivedAmount => "totalreceivedamount"
    case BookedSellingAmount => "bookedsellingamount"
    case ProjectDurationPlannedDays => "projectduration_planned_days"
    case ScenarioName => "scenario_name"
  }

  /** A payload: field name to value. */
  type Payload = map<Key, Value>

  /** `payload.k` is truthy. */
  predicate Truthy(p: Payload, k: Key)
  {
    k in p && IsTruthy(p[k])
  }

  /** JavaScript `v * ratio`: a non-numeric operand gives NaN. */
  function Times(v: Value, ratio: real): Value
  {
    if v.Num? then Num(v.x * ratio) else NaN
  }

  /** JavaScript `a || b` on two values: `a` when it is truthy, `b` otherwise. */
  function Or(a: Value, b: Value): Value
  {
    if IsTruthy(a) then a else b
  }

  /** A risk level, as the back end names it. */
  datatype Risk = Low | Medium | High

  function RiskName(r: Risk): string
  {
    match r
    case Low => "Low"
    case Medium => "Medium"
    case High => "High"
  }

  /** Risk levels in increasing order. */
  function Rank(r: Risk): nat
  {
    match r
    case Low => 0
    case Medium => 1
    case High => 2
  }

  /** JavaScript `Math.floor`. */
  function Floor(x: real): real
  {
    x.Floor as real
  }

  /** Truncation toward zero, as Python's `int(x)` and numpy's `astype(int)` do. */
  function Truncate(x: real): int
  {
    if x >= 0.0 then x.Floor else -((-x).Floor)
  }

  /** `a` is `b` with some elements left out: its elements occur in `b` in the same order. */
  predicate IsSubsequence<T(==)>(a: seq<T>, b: seq<T>)
    decreases |b|
  {
    a == [] || (b != [] && ((a[0] == b[0] && IsSubsequence(a[1..], b[1..])) || IsSubsequence(a, b[1..])))
  }
}
