/** The cost-prediction request schema: three strictly positive required numbers, three
    required categorical texts, and five defaulting validators that run in field-declaration
    order and may read only the fields validated before them. */
module CostSchema {
  import opened Values

  /** The declaration order of the fields. `AsDeclared` is the schema's order, in which
      `bookedunits` comes before `totalunits`; `UnitsFirst` declares `totalunits` first. */
  datatype Layout = AsDeclared | UnitsFirst

  /** A request body as received: the numbers and texts present in it (a key that is absent or
      null is missing from both maps). */
  datatype RawRequest = RawRequest(numbers: map<Key, real>, texts: map<Key, string>)

  /** A validated request: every numeric field that holds a value, and the texts. */
  datatype CostRequest = CostRequest(numbers: map<Key, real>, texts: map<Key, string>)

  /** The numeric fields of the schema. */
  predicate IsNumberField(k: Key)
  {
    !IsTextField(k) && k != BudgetOverrunPercent && k != ActualDurationDays
  }

  predicate IsTextField(k: Key)
  {
    k == FinalProjectType || k == PromoterType || k == DistrictType || k == ScenarioName
  }

  /** The fields declared with `Field(..., gt=0)`. */
  predicate IsPositiveField(k: Key)
  {
    k == FinalProjectCost || k == TotalUnits || k == PlannedDurationDays
  }

  /** The required fields, in declaration order. */
  const Checked: seq<Key> :=
    [FinalProjectCost, TotalUnits, PlannedDurationDays, FinalProjectType, PromoterType, DistrictType]

  /** Where a field is declared; keys that are not fields of the schema come last. */
  function Position(layout: Layout, k: Key): nat
  {
    match k
    case FinalProjectCost => 0
    case TotalIncurredCost => 1
    case TotalLandCost => 2
    case TotalSellingAmount => 3
    case TotalPayableAmountGovernment => 4
    case TotalDevelopCost => 5
    case TotalReceivedAmount => 6
    case BookedSellingAmount => 7
    case BookedUnits => if layout == AsDeclared then 8 else 9
    case TotalUnits => if layout == AsDeclared then 9 else 8
    case ProgressRatio => 10
    case LandUtilization => 11
    case PlannedDurationDays => 12
    case ProjectDurationPlannedDays => 13
    case AvgTemp => 14
    case TotalRain => 15
    case TotalSquareFootBuild => 16
    case FinalProjectType => 17
    case PromoterType => 18
    case DistrictType => 19
    case ScenarioName => 20
    case BudgetOverrunPercent => 21
    case ActualDurationDays => 21
  }

  function Input(raw: RawRequest, k: Key): Option<real>
  {
    if k in raw.numbers then Some(raw.numbers[k]) else None
  }

  /** `values.get(name, 0)`. */
  function OrZero(o: Option<real>): real
  {
    if o.Some? then o.value else 0.0
  }

  /** The value a numeric field holds once validated: `None` when it is missing and has no
      default, or when it fails its `gt=0` constraint (a failed field is not recorded among
      the validated values). */
  function Field(layout: Layout, raw: RawRequest, k: Key): (r: Option<real>)
    decreases Position(layout, k), 1
    ensures IsPositiveField(k) ==> (r.Some? <==> k in raw.numbers && raw.numbers[k] > 0.0)
    ensures k in raw.numbers && (!IsPositiveField(k) || raw.numbers[k] > 0.0) ==> r == Some(raw.numbers[k])
  {
    var value := Input(raw, k);
    match k
    case FinalProjectCost => Positive(value)
    case TotalUnits => Positive(value)
    case PlannedDurationDays => Positive(value)
    case ProjectDurationPlannedDays =>
      if value.None? then Earlier(layout, raw, k, PlannedDurationDays) else value
    case BookedUnits =>
      if value.None? then Some(OrZero(Earlier(layout, raw, k, TotalUnits)) * 0.6) else value
    case TotalSellingAmount =>
      if value.None? then Some(OrZero(Earlier(layout, raw, k, FinalProjectCost)) * 1.2) else value
    case TotalReceivedAmount =>
      if value.None? then Some(OrZero(Earlier(layout, raw, k, TotalSellingAmount)) * 0.5) else value
    case BookedSellingAmount =>
      if value.None? then Some(OrZero(Earlier(layout, raw, k, TotalSellingAmount)) * 0.7) else value
    case _ => value
  }

  function Positive(value: Option<real>): Option<real>
  {
    if value.Some? && value.value > 0.0 then value else None
  }

  /** `values.get(j)` inside the validator of `k`: only fields declared before `k` are there. */
  function Earlier(layout: Layout, raw: RawRequest, k: Key, j: Key): Option<real>
    decreases Position(layout, k), 0
  {
    if Position(layout, j) < Position(layout, k) then Field(layout, raw, j) else None
  }

  /** The field fails validation: a required number missing or not above 0, or a required
      text missing. */
  predicate Invalid(raw: RawRequest, k: Key)
  {
    if IsPositiveField(k) then Positive(Input(raw, k)).None? else k !in raw.texts
  }

  /** The fields that fail, in declaration order. */
  function Failures(raw: RawRequest, ks: seq<Key>): (failed: seq<Key>)
    ensures forall k :: k in failed <==> k in ks && Invalid(raw, k)
  {
    if ks == [] then []
    else (if Invalid(raw, ks[0]) then [ks[0]] else []) + Failures(raw, ks[1..])
  }

  /** Validation of a request body: the failing required fields, or the validated request. */
  function Parse(layout: Layout, raw: RawRequest): (r: Result<CostRequest, seq<Key>>)
    ensures r.Err? ==> r.error != [] && forall k :: k in r.error <==> k in Checked && Invalid(raw, k)
    ensures r.Ok? ==> r.value.texts == raw.texts && forall k :: k in r.value.numbers ==> IsNumberField(k)
  {
    var failed := Failures(raw, Checked);
    if failed != [] then Err(failed)
    else
      Ok(CostRequest(
           map k: Key | IsNumberField(k) && Field(layout, raw, k).Some? :: Field(layout, raw, k).value,
           raw.texts))
  }

  /** The request carries every required field with a valid value. */
  predicate Complete(raw: RawRequest)
  {
    && (forall k :: IsPositiveField(k) ==> k in raw.numbers && raw.numbers[k] > 0.0)
    && FinalProjectType in raw.texts && PromoterType in raw.texts && DistrictType in raw.texts
  }

  /** A request validates exactly when its three positive fields are present and above 0 and
      its three categorical texts are present. */
  lemma ParseAccepts(layout: Layout, raw: RawRequest)
    ensures Parse(layout, raw).Ok? <==> Complete(raw)
  {
    assert Parse(layout, raw).Ok? <==> Failures(raw, Checked) == [];
    NoFailures(raw, Checked);
    CheckedValid(raw);
  }

  /** The checked fields are the three positive numbers and the three categorical texts. */
  lemma CheckedKeys()
    ensures forall k :: k in Checked <==>
      IsPositiveField(k) || k == FinalProjectType || k == PromoterType || k == DistrictType
  {
  }

  lemma CheckedValid(raw: RawRequest)
    ensures (forall k :: k in Checked ==> !Invalid(raw, k)) <==> Complete(raw)
  {
    CheckedKeys();
    forall k | IsPositiveField(k)
      ensures !Invalid(raw, k) <==> k in raw.numbers && raw.numbers[k] > 0.0
    {
    }
    if forall k :: k in Checked ==> !Invalid(raw, k) {
      forall k | IsPositiveField(k) ensures k in raw.numbers && raw.numbers[k] > 0.0 {
        assert k in Checked;
      }
      assert FinalProjectType in Checked && PromoterType in Checked && DistrictType in Checked;
    }
  }

  /** Nothing fails exactly when every field checked is valid. */
  lemma NoFailures(raw: RawRequest, ks: seq<Key>)
    ensures Failures(raw, ks) == [] <==> forall k :: k in ks ==> !Invalid(raw, k)
  {
    var failed := Failures(raw, ks);
    if failed != [] {
      assert failed[0] in failed;
    }
  }

  /** In a validated request, a numeric field holds exactly its validated value. */
  lemma ParsedNumber(layout: Layout, raw: RawRequest, k: Key)
    requires Parse(layout, raw).Ok? && IsNumberField(k)
    ensures k in Parse(layout, raw).value.numbers <==> Field(layout, raw, k).Some?
    ensures k in Parse(layout, raw).value.numbers ==>
      Parse(layout, raw).value.numbers[k] == Field(layout, raw, k).value
  {
  }

  /** A validated request holds its three positive fields, each above 0. */
  lemma ParsedPositive(layout: Layout, raw: RawRequest, k: Key)
    requires Parse(layout, raw).Ok? && IsPositiveField(k)
    ensures k in Parse(layout, raw).value.numbers && Parse(layout, raw).value.numbers[k] > 0.0
  {
    ParseAccepts(layout, raw);
    ParsedNumber(layout, raw, k);
  }

  /** Every defaulting validator returns a value that is present unchanged. */
  lemma PresentUnchanged(layout: Layout, raw: RawRequest, k: Key)
    requires Parse(layout, raw).Ok? && IsNumberField(k) && k in raw.numbers
    ensures k in Parse(layout, raw).value.numbers
    ensures Parse(layout, raw).value.numbers[k] == raw.numbers[k]
  {
    if IsPositiveField(k) {
      ParseAccepts(layout, raw);
    }
    ParsedNumber(layout, raw, k);
  }

  /** A missing planned project duration is the planned duration. */
  lemma DefaultProjectDuration(layout: Layout, raw: RawRequest)
    requires Parse(layout, raw).Ok? && ProjectDurationPlannedDays !in raw.numbers
    ensures var numbers := Parse(layout, raw).value.numbers;
      ProjectDurationPlannedDays in numbers && PlannedDurationDays in numbers
      && numbers[ProjectDurationPlannedDays] == numbers[PlannedDurationDays]
  {
    ParsedPositive(layout, raw, PlannedDurationDays);
    ParsedNumber(layout, raw, PlannedDurationDays);
    ParsedNumber(layout, raw, ProjectDurationPlannedDays);
  }

  /** A missing selling amount is 1.2 times the project cost. */
  lemma DefaultSelling(layout: Layout, raw: RawRequest)
    requires Parse(layout, raw).Ok? && TotalSellingAmount !in raw.numbers
    ensures var numbers := Parse(layout, raw).value.numbers;
      TotalSellingAmount in numbers && FinalProjectCost in numbers
      && numbers[TotalSellingAmount] == 1.2 * numbers[FinalProjectCost]
  {
    ParsedPositive(layout, raw, FinalProjectCost);
    ParsedNumber(layout, raw, FinalProjectCost);
    ParsedNumber(layout, raw, TotalSellingAmount);
  }

  /** A missing receipts amount is 0.5 times the selling amount as it stands after its own
      default. */
  lemma DefaultReceipts(layout: Layout, raw: RawRequest)
    requires Parse(layout, raw).Ok? && TotalReceivedAmount !in raw.numbers
    ensures var numbers := Parse(layout, raw).value.numbers;
      TotalSellingAmount in numbers && TotalReceivedAmount in numbers
      && numbers[TotalReceivedAmount] == 0.5 * numbers[TotalSellingAmount]
  {
    ParsedNumber(layout, raw, TotalSellingAmount);
    ParsedNumber(layout, raw, TotalReceivedAmount);
  }

  /** A missing booked-sales amount is 0.7 times the selling amount as it stands after its own
      default. */
  lemma DefaultBookedSales(layout: Layout, raw: RawRequest)
    requires Parse(layout, raw).Ok? && BookedSellingAmount !in raw.numbers
    ensures var numbers := Parse(layout, raw).value.numbers;
      TotalSellingAmount in numbers && BookedSellingAmount in numbers
      && numbers[BookedSellingAmount] == 0.7 * numbers[TotalSellingAmount]
  {
    ParsedNumber(layout, raw, TotalSellingAmount);
    ParsedNumber(layout, raw, BookedSellingAmount);
  }

  /** As declared, a missing `bookedunits` is always 0: its validator runs before `totalunits`
      has been validated, so the lookup falls back to 0. */
  lemma BookingsDefaultAsDeclared(raw: RawRequest)
    requires Parse(AsDeclared, raw).Ok? && BookedUnits !in raw.numbers
    ensures BookedUnits in Parse(AsDeclared, raw).value.numbers
    ensures Parse(AsDeclared, raw).value.numbers[BookedUnits] == 0.0
  {
    ParsedNumber(AsDeclared, raw, BookedUnits);
  }

  /** A complete request with 100 units and no bookings given. */
  const BookingsWitness: RawRequest :=
    RawRequest(map[FinalProjectCost := 1.0, TotalUnits := 100.0, PlannedDurationDays := 1.0],
               map[FinalProjectType := "", PromoterType := "", DistrictType := ""])

  /** On that request the two orders differ: 0 bookings as declared, 60 with units first. */
  lemma BookingsExample()
    ensures Complete(BookingsWitness) && BookedUnits !in BookingsWitness.numbers
    ensures Field(AsDeclared, BookingsWitness, BookedUnits) == Some(0.0)
    ensures Field(UnitsFirst, BookingsWitness, BookedUnits) == Some(60.0)
  {
  }

  /** With `totalunits` declared first, a missing `bookedunits` is 0.6 times the units. */
  lemma BookingsDefault(raw: RawRequest)
    requires Parse(UnitsFirst, raw).Ok? && BookedUnits !in raw.numbers
    ensures var numbers := Parse(UnitsFirst, raw).value.numbers;
      BookedUnits in numbers && TotalUnits in numbers
      && numbers[BookedUnits] == 0.6 * numbers[TotalUnits]
  {
    ParsedPositive(UnitsFirst, raw, TotalUnits);
    ParsedNumber(UnitsFirst, raw, TotalUnits);
    ParsedNumber(UnitsFirst, raw, BookedUnits);
  }

  /** The two orders agree on every field other than a missing `bookedunits`. */
  lemma {:induction false} LayoutsAgree(raw: RawRequest, k: Key)
    requires k != BookedUnits || BookedUnits in raw.numbers
    ensures Field(AsDeclared, raw, k) == Field(UnitsFirst, raw, k)
  {
    match k
    case TotalReceivedAmount =>
    case BookedSellingAmount =>
    case ProjectDurationPlannedDays =>
    case _ =>
  }
}
