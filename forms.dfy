/** What the form state of the two prediction pages is: the text typed in each input. */
module FormInput {
  import opened Values

  /** `formData`: the text of each input, by field. */
  type Form = map<Key, string>

  /** `formData.k`. Both forms initialise every input they show; a key the form does not have
      reads as the empty text. */
  function Entry(form: Form, k: Key): string
  {
    if k in form then form[k] else ""
  }
}

/** The cost-overrun form's submit handler (OverrunForm.jsx, `numberOrDefault` and
    `handleSubmit`): a guard on the three required inputs, then a payload in which every number
    that reads as a finite number is kept as typed and every other one takes its default. */
module OverrunForm {
  import opened Values
  import opened FormInput

  /** The fallback of `numberOrDefault`: a number, or a function computing one. */
  datatype Fallback = Fixed(x: real) | Computed(compute: () -> real)

  function Resolve(f: Fallback): real
  {
    match f
    case Fixed(x) => x
    case Computed(compute) => compute()
  }

  /** `numberOrDefault`: the parsed number when it is finite, 0 included; otherwise the
      fallback, called first when it is a function. */
  function NumberOrDefault(value: string, fallback: Fallback, parseFloat: string -> Option<real>): (r: real)
    ensures parseFloat(value).Some? ==> r == parseFloat(value).value
    ensures parseFloat(value).None? ==> r == Resolve(fallback)
  {
    match parseFloat(value)
    case Some(x) => x
    case None => Resolve(fallback)
  }

  /** The JSON body posted to the cost-overrun endpoint: every key is always present. */
  datatype OverrunPayload = OverrunPayload(
    finalProjectCost: real, totalIncurredCost: real, totalLandCost: real, totalSellingAmount: real,
    totalPayableAmountGovernment: real, totalDevelopCost: real, totalReceivedAmount: real,
    bookedSellingAmount: real, bookedUnits: real, totalUnits: real, progressRatio: real,
    landUtilization: real, plannedDurationDays: real, avgTemp: real, totalRain: real,
    totalSquareFootBuild: real,
    finalProjectType: string, promoterType: string, districtType: string)

  /** The guard of `handleSubmit`: cost, units and planned duration are non-empty texts. */
  predicate RequiredFilled(form: Form)
  {
    Entry(form, FinalProjectCost) != "" && Entry(form, TotalUnits) != "" && Entry(form, PlannedDurationDays) != ""
  }

  /** `handleSubmit` up to the request: nothing is built or sent when a required input is
      empty; otherwise the payload, with the three choices copied as typed. */
  function Submit(form: Form, parseFloat: string -> Option<real>): (r: Option<OverrunPayload>)
    ensures r.Some? <==> RequiredFilled(form)
    ensures r.Some? ==>
      && r.value.finalProjectType == Entry(form, FinalProjectType)
      && r.value.promoterType == Entry(form, PromoterType)
      && r.value.districtType == Entry(form, DistrictType)
  {
    if !RequiredFilled(form) then None
    else
      var finalCost := NumberOrDefault(Entry(form, FinalProjectCost), Fixed(0.0), parseFloat);
      var totalUnits := NumberOrDefault(Entry(form, TotalUnits), Fixed(0.0), parseFloat);
      var totalSelling := NumberOrDefault(Entry(form, TotalSellingAmount), Computed(() => finalCost * 1.2), parseFloat);
      Some(OverrunPayload(
        finalCost,
        NumberOrDefault(Entry(form, TotalIncurredCost), Computed(() => finalCost * 0.65), parseFloat),
        NumberOrDefault(Entry(form, TotalLandCost), Computed(() => finalCost * 0.2), parseFloat),
        totalSelling,
        NumberOrDefault(Entry(form, TotalPayableAmountGovernment), Fixed(0.0), parseFloat),
        NumberOrDefault(Entry(form, TotalDevelopCost), Computed(() => finalCost * 0.4), parseFloat),
        NumberOrDefault(Entry(form, TotalReceivedAmount), Computed(() => totalSelling * 0.45), parseFloat),
        NumberOrDefault(Entry(form, BookedSellingAmount), Computed(() => totalSelling * 0.7), parseFloat),
        NumberOrDefault(Entry(form, BookedUnits), Computed(() => totalUnits * 0.6), parseFloat),
        totalUnits,
        NumberOrDefault(Entry(form, ProgressRatio), Fixed(0.5), parseFloat),
        NumberOrDefault(Entry(form, LandUtilization), Fixed(0.8), parseFloat),
        NumberOrDefault(Entry(form, PlannedDurationDays), Fixed(365.0), parseFloat),
        NumberOrDefault(Entry(form, AvgTemp), Fixed(28.0), parseFloat),
        NumberOrDefault(Entry(form, TotalRain), Fixed(50.0), parseFloat),
        NumberOrDefault(Entry(form, TotalSquareFootBuild), Computed(() => totalUnits * 1000.0), parseFloat),
        Entry(form, FinalProjectType), Entry(form, PromoterType), Entry(form, DistrictType)))
  }

  /** The sixteen numeric inputs of the form. */
  predicate IsNumberKey(k: Key)
  {
    match k
    case FinalProjectCost | TotalIncurredCost | TotalLandCost | TotalSellingAmount
      | TotalPayableAmountGovernment | TotalDevelopCost | TotalReceivedAmount
      | BookedSellingAmount | BookedUnits | TotalUnits | ProgressRatio | LandUtilization
      | PlannedDurationDays | AvgTemp | TotalRain | TotalSquareFootBuild => true
    case _ => false
  }

  /** The payload's number under key `k`. */
  function NumberAt(p: OverrunPayload, k: Key): real
    requires IsNumberKey(k)
  {
    match k
    case FinalProjectCost => p.finalProjectCost
    case TotalIncurredCost => p.totalIncurredCost
    case TotalLandCost => p.totalLandCost
    case TotalSellingAmount => p.totalSellingAmount
    case TotalPayableAmountGovernment => p.totalPayableAmountGovernment
    case TotalDevelopCost => p.totalDevelopCost
    case TotalReceivedAmount => p.totalReceivedAmount
    case BookedSellingAmount => p.bookedSellingAmount
    case BookedUnits => p.bookedUnits
    case TotalUnits => p.totalUnits
    case ProgressRatio => p.progressRatio
    case LandUtilization => p.landUtilization
    case PlannedDurationDays => p.plannedDurationDays
    case AvgTemp => p.avgTemp
    case TotalRain => p.totalRain
    case TotalSquareFootBuild => p.totalSquareFootBuild
  }

  /** The default of each number, stated over the payload itself: the cost shares are of the
      payload's project cost, the collections and booked revenue of its selling amount (the
      typed one or its own default), the unit-based fields of its unit count, unfloored. */
  function DefaultIn(p: OverrunPayload, k: Key): real
    requires IsNumberKey(k)
  {
    match k
    case FinalProjectCost | TotalUnits | TotalPayableAmountGovernment => 0.0
    case TotalIncurredCost => 0.65 * p.finalProjectCost
    case TotalLandCost => 0.2 * p.finalProjectCost
    case TotalSellingAmount => 1.2 * p.finalProjectCost
    case TotalDevelopCost => 0.4 * p.finalProjectCost
    case TotalReceivedAmount => 0.45 * p.totalSellingAmount
    case BookedSellingAmount => 0.7 * p.totalSellingAmount
    case BookedUnits => 0.6 * p.totalUnits
    case TotalSquareFootBuild => 1000.0 * p.totalUnits
    case ProgressRatio => 0.5
    case LandUtilization => 0.8
    case PlannedDurationDays => 365.0
    case AvgTemp => 28.0
    case TotalRain => 50.0
  }

  /** Each number of a submitted payload is what was typed when it reads as a finite number (an
      explicit 0 is kept), and its default otherwise. */
  lemma SubmittedNumber(form: Form, parseFloat: string -> Option<real>, k: Key)
    requires RequiredFilled(form) && IsNumberKey(k)
    ensures var p := Submit(form, parseFloat).value;
      var typed := parseFloat(Entry(form, k));
      && (typed.Some? ==> NumberAt(p, k) == typed.value)
      && (typed.None? ==> NumberAt(p, k) == DefaultIn(p, k))
  {
    match k
    case FinalProjectCost =>
    case TotalIncurredCost =>
    case TotalLandCost =>
    case TotalSellingAmount =>
    case TotalPayableAmountGovernment =>
    case TotalDevelopCost =>
    case TotalReceivedAmount =>
    case BookedSellingAmount =>
    case BookedUnits =>
    case TotalUnits =>
    case ProgressRatio =>
    case LandUtilization =>
    case PlannedDurationDays =>
    case AvgTemp =>
    case TotalRain =>
    case TotalSquareFootBuild =>
  }
}

/** The delay form's submit handler (DelayForm.jsx, `handleSubmit`): one object of
    `parsed || default` terms, sent without any guard. A number that does not parse is NaN,
    and so is anything computed from it; the payload object holds the NaN, which JSON encoding
    then sends as `null`. */
module DelayForm {
  import opened Values
  import opened FormInput

  /** A parse result as a JavaScript number: NaN when nothing was read. */
  function AsNumber(o: Option<real>): Value
  {
    if o.Some? then Num(o.value) else NaN
  }

  /** The JSON body posted to the delay endpoint. */
  datatype DelayPayload = DelayPayload(
    finalProjectCost: Value, totalIncurredCost: Value, totalLandCost: Value,
    budgetOverrunPercent: Value, progressRatio: Value, bookedUnits: Value, totalUnits: Value,
    landUtilization: Value, plannedDurationDays: Value, actualDurationDays: Value,
    avgTemp: Value, totalRain: Value, totalSquareFootBuild: Value,
    finalProjectType: string, promoterType: string, districtType: string)

  /** The four inputs read with `parseInt`; the others are read with `parseFloat`. */
  predicate IsIntKey(k: Key)
  {
    k == BookedUnits || k == TotalUnits || k == PlannedDurationDays || k == ActualDurationDays
  }

  /** `parseFloat(formData.k)`. */
  function ReadFloat(form: Form, k: Key, parseFloat: string -> Option<real>): Value
  {
    AsNumber(parseFloat(Entry(form, k)))
  }

  /** `parseInt(formData.k)`. */
  function ReadInt(form: Form, k: Key, parseInt: string -> Option<int>): Value
  {
    match parseInt(Entry(form, k))
    case Some(n) => Num(n as real)
    case None => NaN
  }

  /** The input `k` as the handler reads it. */
  function Read(form: Form, k: Key, parseFloat: string -> Option<real>, parseInt: string -> Option<int>): Value
  {
    if IsIntKey(k) then ReadInt(form, k, parseInt) else ReadFloat(form, k, parseFloat)
  }

  /** `handleSubmit`'s payload; the three choices are copied as typed. */
  function Submit(form: Form, parseFloat: string -> Option<real>, parseInt: string -> Option<int>): (p: DelayPayload)
    ensures p.finalProjectType == Entry(form, FinalProjectType)
    ensures p.promoterType == Entry(form, PromoterType)
    ensures p.districtType == Entry(form, DistrictType)
  {
    DelayPayload(
      ReadFloat(form, FinalProjectCost, parseFloat),
      Or(ReadFloat(form, TotalIncurredCost, parseFloat), Times(ReadFloat(form, FinalProjectCost, parseFloat), 0.6)),
      Or(ReadFloat(form, TotalLandCost, parseFloat), Times(ReadFloat(form, FinalProjectCost, parseFloat), 0.2)),
      Or(ReadFloat(form, BudgetOverrunPercent, parseFloat), Num(0.0)),
      Or(ReadFloat(form, ProgressRatio, parseFloat), Num(0.5)),
      Or(ReadInt(form, BookedUnits, parseInt), Times(ReadInt(form, TotalUnits, parseInt), 0.5)),
      ReadInt(form, TotalUnits, parseInt),
      Or(ReadFloat(form, LandUtilization, parseFloat), Num(0.5)),
      ReadInt(form, PlannedDurationDays, parseInt),
      Or(ReadInt(form, ActualDurationDays, parseInt), ReadInt(form, PlannedDurationDays, parseInt)),
      ReadFloat(form, AvgTemp, parseFloat),
      ReadFloat(form, TotalRain, parseFloat),
      Or(ReadFloat(form, TotalSquareFootBuild, parseFloat), Times(ReadInt(form, TotalUnits, parseInt), 1000.0)),
      Entry(form, FinalProjectType), Entry(form, PromoterType), Entry(form, DistrictType))
  }

  /** The thirteen numeric inputs of the form. */
  predicate IsNumberKey(k: Key)
  {
    match k
    case FinalProjectCost | TotalIncurredCost | TotalLandCost | BudgetOverrunPercent
      | ProgressRatio | BookedUnits | TotalUnits | LandUtilization | PlannedDurationDays
      | ActualDurationDays | AvgTemp | TotalRain | TotalSquareFootBuild => true
    case _ => false
  }

  /** The inputs with a default; the other five keep the value read, NaN included (sent as
      `null` once encoded). */
  predicate HasDefault(k: Key)
  {
    match k
    case TotalIncurredCost | TotalLandCost | BudgetOverrunPercent | ProgressRatio | BookedUnits
      | LandUtilization | ActualDurationDays | TotalSquareFootBuild => true
    case _ => false
  }

  function NumberAt(p: DelayPayload, k: Key): Value
    requires IsNumberKey(k)
  {
    match k
    case FinalProjectCost => p.finalProjectCost
    case TotalIncurredCost => p.totalIncurredCost
    case TotalLandCost => p.totalLandCost
    case BudgetOverrunPercent => p.budgetOverrunPercent
    case ProgressRatio => p.progressRatio
    case BookedUnits => p.bookedUnits
    case TotalUnits => p.totalUnits
    case LandUtilization => p.landUtilization
    case PlannedDurationDays => p.plannedDurationDays
    case ActualDurationDays => p.actualDurationDays
    case AvgTemp => p.avgTemp
    case TotalRain => p.totalRain
    case TotalSquareFootBuild => p.totalSquareFootBuild
  }

  /** The default of each defaulted number, stated over the payload itself: shares of its
      project cost, half of and 1000 times its unit count (unfloored), its planned duration. */
  function DefaultIn(p: DelayPayload, k: Key): Value
    requires HasDefault(k)
  {
    match k
    case TotalIncurredCost => Times(p.finalProjectCost, 0.6)
    case TotalLandCost => Times(p.finalProjectCost, 0.2)
    case BudgetOverrunPercent => Num(0.0)
    case ProgressRatio => Num(0.5)
    case BookedUnits => Times(p.totalUnits, 0.5)
    case LandUtilization => Num(0.5)
    case ActualDurationDays => p.plannedDurationDays
    case TotalSquareFootBuild => Times(p.totalUnits, 1000.0)
  }

  /** A defaulted number keeps what was read only when it is truthy: a typed 0, like a text
      that does not parse, is replaced by the default. A number without a default is sent as
      read. */
  lemma SubmittedNumber(form: Form, parseFloat: string -> Option<real>, parseInt: string -> Option<int>, k: Key)
    requires IsNumberKey(k)
    ensures var p := Submit(form, parseFloat, parseInt);
      var typed := Read(form, k, parseFloat, parseInt);
      && (HasDefault(k) && IsTruthy(typed) ==> NumberAt(p, k) == typed)
      && (HasDefault(k) && !IsTruthy(typed) ==> NumberAt(p, k) == DefaultIn(p, k))
      && (!HasDefault(k) ==> NumberAt(p, k) == typed)
  {
    match k
    case FinalProjectCost =>
    case TotalIncurredCost =>
    case TotalLandCost =>
    case BudgetOverrunPercent =>
    case ProgressRatio =>
    case BookedUnits =>
    case TotalUnits =>
    case LandUtilization =>
    case PlannedDurationDays =>
    case ActualDurationDays =>
    case AvgTemp =>
    case TotalRain =>
    case TotalSquareFootBuild =>
  }

  /** Progress and land utilisation are always non-zero numbers, and the budget overrun always
      a number. */
  lemma AlwaysNumbers(form: Form, parseFloat: string -> Option<real>, parseInt: string -> Option<int>)
    ensures var p := Submit(form, parseFloat, parseInt);
      IsTruthy(p.progressRatio) && IsTruthy(p.landUtilization) && p.budgetOverrunPercent.Num?
  {
  }

  /** Without a project cost that parses, an incurred cost that does not parse puts NaN in the
      payload, which JSON encoding sends as `null`. */
  lemma MissingCostGivesNaN(form: Form, parseFloat: string -> Option<real>, parseInt: string -> Option<int>)
    requires parseFloat(Entry(form, FinalProjectCost)).None? && parseFloat(Entry(form, TotalIncurredCost)).None?
    ensures Submit(form, parseFloat, parseInt).totalIncurredCost == NaN
  {
  }
}
