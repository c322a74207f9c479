/** The chat assistant's field registry, its keyword intent classifier and its value parser
    (ChatBot.jsx, the field tables, `detectIntent` and `processFieldValue`). */
module ChatFields {
  import opened Values
  import opened Text

  /** The two prediction domains; the assistant's `mode`. */
  datatype Mode = Delay | CostOverrun

  /** A field is a free number or a choice shown with its options (which are not enforced). */
  datatype FieldType = Number | Select

  /** A question of the registry. Its caption and, for a choice, its options depend on the key
      alone (`Label`, `Options`): both domains show the same ones for a shared key. */
  datatype FieldSpec = FieldSpec(key: Key, kind: FieldType)

  const ProjectTypes: seq<string> :=
    ["Residential/Group Housing", "Commercial", "Mixed Development", "Plotted Development"]
  const PromoterTypes: seq<string> :=
    ["COMPANY", "PARTNERSHIP FIRM", "LIMITED LIABILITY PARTNERSHIP FIRM", "COMPETENT AUTHORITY/ GOVERNMENT"]
  const Districts: seq<string> :=
    ["Ahmedabad", "Surat", "Vadodara", "Rajkot", "Gandhinagar", "Bhavnagar", "Jamnagar"]

  /** The caption a field is asked with; shared keys have the same caption in both domains. */
  function Label(k: Key): string
  {
    match k
    case FinalProjectCost => "Final Project Cost (₹)"
    case TotalUnits => "Total Units"
    case PlannedDurationDays => "Planned Duration (days)"
    case FinalProjectType => "Project Type"
    case PromoterType => "Promoter Type"
    case DistrictType => "District"
    case TotalIncurredCost => "Total Incurred Cost (₹)"
    case TotalLandCost => "Total Land Cost (₹)"
    case BudgetOverrunPercent => "Budget Overrun (%)"
    case ProgressRatio => "Progress Ratio (0-1)"
    case BookedUnits => "Booked Units"
    case LandUtilization => "Land Utilization (0-1)"
    case ActualDurationDays => "Actual Duration (days)"
    case AvgTemp => "Average Temperature (°C)"
    case TotalRain => "Total Rainfall (mm)"
    case TotalSquareFootBuild => "Total Square Foot Build"
    case TotalSellingAmount => "Total Selling Amount (₹)"
    case TotalPayableAmountGovernment => "Government Payables (₹)"
    case TotalDevelopCost => "Development Cost (₹)"
    case TotalReceivedAmount => "Collections Received (₹)"
    case BookedSellingAmount => "Booked Revenue (₹)"
    case ProjectDurationPlannedDays | ScenarioName => ""  // keys the assistant never asks for
  }

  /** The options shown with a choice. */
  function Options(k: Key): seq<string>
  {
    match k
    case FinalProjectType => ProjectTypes
    case PromoterType => PromoterTypes
    case DistrictType => Districts
    case _ => []
  }

  const DelayRequiredFields: seq<FieldSpec> := [
    FieldSpec(FinalProjectCost, Number),
    FieldSpec(TotalUnits, Number),
    FieldSpec(PlannedDurationDays, Number),
    FieldSpec(FinalProjectType, Select),
    FieldSpec(PromoterType, Select),
    FieldSpec(DistrictType, Select)
  ]

  const DelayOptionalFields: seq<FieldSpec> := [
    FieldSpec(TotalIncurredCost, Number),
    FieldSpec(TotalLandCost, Number),
    FieldSpec(BudgetOverrunPercent, Number),
    FieldSpec(ProgressRatio, Number),
    FieldSpec(BookedUnits, Number),
    FieldSpec(LandUtilization, Number),
    FieldSpec(ActualDurationDays, Number),
    FieldSpec(AvgTemp, Number),
    FieldSpec(TotalRain, Number),
    FieldSpec(TotalSquareFootBuild, Number)
  ]

  const CostRequiredFields: seq<FieldSpec> := [
    FieldSpec(FinalProjectCost, Number),
    FieldSpec(TotalUnits, Number),
    FieldSpec(PlannedDurationDays, Number),
    FieldSpec(FinalProjectType, Select),
    FieldSpec(PromoterType, Select),
    FieldSpec(DistrictType, Select)
  ]

  const CostOptionalFields: seq<FieldSpec> := [
    FieldSpec(TotalIncurredCost, Number),
    FieldSpec(TotalLandCost, Number),
    FieldSpec(TotalSellingAmount, Number),
    FieldSpec(TotalPayableAmountGovernment, Number),
    FieldSpec(TotalDevelopCost, Number),
    FieldSpec(TotalReceivedAmount, Number),
    FieldSpec(BookedSellingAmount, Number),
    FieldSpec(BookedUnits, Number),
    FieldSpec(ProgressRatio, Number),
    FieldSpec(LandUtilization, Number),
    FieldSpec(AvgTemp, Number),
    FieldSpec(TotalRain, Number),
    FieldSpec(TotalSquareFootBuild, Number)
  ]

  function RequiredFields(m: Mode): seq<FieldSpec>
  {
    if m == Delay then DelayRequiredFields else CostRequiredFields
  }

  function OptionalFields(m: Mode): seq<FieldSpec>
  {
    if m == Delay then DelayOptionalFields else CostOptionalFields
  }

  function KeysOf(fields: seq<FieldSpec>): set<Key>
  {
    set i | 0 <= i < |fields| :: fields[i].key
  }

  /** The keys a session in mode `m` may ever record. */
  function SchemaKeys(m: Mode): set<Key>
  {
    KeysOf(RequiredFields(m)) + KeysOf(OptionalFields(m))
  }

  /** Every field of either domain is a number, except the three required selects. */
  predicate IsSelectKey(k: Key)
  {
    k == FinalProjectType || k == PromoterType || k == DistrictType
  }

  /** A field of the registry asks for a number exactly when its key is not a select key. */
  predicate KindMatchesKey(f: FieldSpec)
  {
    f.kind.Number? <==> !IsSelectKey(f.key)
  }

  /** The required questions are six in both domains and ask about six different keys, every
      optional field asks for a number, and every field of the registry is a number field exactly
      when its key is not one of the three select keys. */
  lemma RegistryShape(m: Mode)
    ensures |RequiredFields(m)| == 6
    ensures forall i, j :: 0 <= i < j < 6 ==> RequiredFields(m)[i].key != RequiredFields(m)[j].key
    ensures forall i :: 0 <= i < |RequiredFields(m)| ==> KindMatchesKey(RequiredFields(m)[i])
    ensures forall i :: 0 <= i < |OptionalFields(m)| ==> KindMatchesKey(OptionalFields(m)[i])
    ensures forall i :: 0 <= i < |OptionalFields(m)| ==> OptionalFields(m)[i].kind.Number?
  {
  }

  /** The position of a key among the required questions, which are the same six, in the same
      order, in both domains; -1 for a key that is not required. */
  function RequiredIndex(k: Key): (i: int)
    ensures -1 <= i < 6
  {
    match k
    case FinalProjectCost => 0
    case TotalUnits => 1
    case PlannedDurationDays => 2
    case FinalProjectType => 3
    case PromoterType => 4
    case DistrictType => 5
    case _ => -1
  }

  /** A key of the mode's optional questions. */
  predicate IsOptionalKey(m: Mode, k: Key)
  {
    match k
    case TotalIncurredCost | TotalLandCost | ProgressRatio | BookedUnits | LandUtilization
      | AvgTemp | TotalRain | TotalSquareFootBuild => true
    case BudgetOverrunPercent | ActualDurationDays => m == Delay
    case TotalSellingAmount | TotalPayableAmountGovernment | TotalDevelopCost
      | TotalReceivedAmount | BookedSellingAmount => m == CostOverrun
    case _ => false
  }

  /** `RequiredIndex` inverts the required list: the `i`-th question asks about the one key whose
      index is `i`. */
  lemma RequiredIndexAt(m: Mode, i: nat)
    requires i < 6
    ensures |RequiredFields(m)| == 6
    ensures RequiredIndex(RequiredFields(m)[i].key) == i
    ensures forall k :: RequiredIndex(k) == i ==> k == RequiredFields(m)[i].key
  {
  }

  /** The keys of the first `i` required questions are those with an index below `i`. */
  lemma RequiredPrefixKeys(m: Mode, i: nat)
    requires i <= 6
    ensures |RequiredFields(m)| == 6
    ensures forall k :: k in KeysOf(RequiredFields(m)[..i]) <==> 0 <= RequiredIndex(k) < i
  {
    var prefix := RequiredFields(m)[..i];
    forall k ensures k in KeysOf(prefix) <==> 0 <= RequiredIndex(k) < i {
      if k in KeysOf(prefix) {
        var j :| 0 <= j < |prefix| && prefix[j].key == k;
        RequiredIndexAt(m, j);
      }
      if 0 <= RequiredIndex(k) < i {
        var j := RequiredIndex(k);
        RequiredIndexAt(m, j);
        assert prefix[j].key == k;
      }
    }
  }

  /** The required keys are exactly the keys with an index. */
  lemma RequiredKeySet(m: Mode)
    ensures forall k :: k in KeysOf(RequiredFields(m)) <==> RequiredIndex(k) >= 0
  {
    RequiredPrefixKeys(m, 6);
    assert RequiredFields(m)[..6] == RequiredFields(m);
  }

  /** Every optional question asks about an optional key. */
  lemma OptionalKeyAt(m: Mode, i: nat)
    requires i < |OptionalFields(m)|
    ensures IsOptionalKey(m, OptionalFields(m)[i].key)
  {
  }

  /** The keys of the mode's registry are its required keys and its optional keys. */
  lemma SchemaKeysByKind(m: Mode)
    ensures forall k :: k in SchemaKeys(m) <==> RequiredIndex(k) >= 0 || IsOptionalKey(m, k)
  {
    RequiredKeySet(m);
    var opt := OptionalFields(m);
    forall k ensures k in KeysOf(opt) <==> IsOptionalKey(m, k) {
      if k in KeysOf(opt) {
        var j :| 0 <= j < |opt| && opt[j].key == k;
        OptionalKeyAt(m, j);
      }
      if IsOptionalKey(m, k) {
        var j := OptionalPosition(m, k);
        assert opt[j].key == k;
      }
    }
  }

  /** Where an optional key sits in the mode's optional list. */
  function OptionalPosition(m: Mode, k: Key): (j: nat)
    requires IsOptionalKey(m, k)
    ensures j < |OptionalFields(m)| && OptionalFields(m)[j].key == k
  {
    if m == Delay then
      match k
      case TotalIncurredCost => 0
      case TotalLandCost => 1
      case BudgetOverrunPercent => 2
      case ProgressRatio => 3
      case BookedUnits => 4
      case LandUtilization => 5
      case ActualDurationDays => 6
      case AvgTemp => 7
      case TotalRain => 8
      case TotalSquareFootBuild => 9
    else
      match k
      case TotalIncurredCost => 0
      case TotalLandCost => 1
      case TotalSellingAmount => 2
      case TotalPayableAmountGovernment => 3
      case TotalDevelopCost => 4
      case TotalReceivedAmount => 5
      case BookedSellingAmount => 6
      case BookedUnits => 7
      case ProgressRatio => 8
      case LandUtilization => 9
      case AvgTemp => 10
      case TotalRain => 11
      case TotalSquareFootBuild => 12
  }

  /** The numbers and strings a collected answer may be, given its field. */
  predicate HasKind(k: Key, v: Value)
  {
    if IsSelectKey(k) then v.Str? else v.Num?
  }

  // ---------------------------------------------------------------- intent classifier

  const DelayKeywords: seq<string> := ["delay", "late", "time", "schedule", "timeline", "duration", "on time"]
  const CostKeywords: seq<string> := ["cost", "overrun", "budget", "expense", "spending", "financial"]

  /** `keywords.filter(kw => text.includes(kw)).length`. */
  function CountMatches(keywords: seq<string>, text: string): nat
  {
    if keywords == [] then 0
    else (if Contains(text, keywords[0]) then 1 else 0) + CountMatches(keywords[1..], text)
  }

  /** The distinct keywords that occur in the text. */
  function Matched(keywords: seq<string>, text: string): set<string>
  {
    set k | k in keywords && Contains(text, k)
  }

  predicate Distinct(keywords: seq<string>)
  {
    forall i, j :: 0 <= i < j < |keywords| ==> keywords[i] != keywords[j]
  }

  /** Over a list without repeats, the filter count is the number of distinct keywords found. */
  lemma {:induction false} CountIsDistinctMatches(keywords: seq<string>, text: string)
    requires Distinct(keywords)
    ensures CountMatches(keywords, text) == |Matched(keywords, text)|
  {
    if keywords != [] {
      var rest := keywords[1..];
      assert Distinct(rest) by {
        forall i, j | 0 <= i < j < |rest| ensures rest[i] != rest[j] {
          assert rest[i] == keywords[i + 1] && rest[j] == keywords[j + 1];
        }
      }
      CountIsDistinctMatches(rest, text);
      assert keywords[0] !in rest by {
        forall j | 0 <= j < |rest| ensures rest[j] != keywords[0] {
          assert rest[j] == keywords[j + 1];
        }
      }
      if Contains(text, keywords[0]) {
        assert Matched(keywords, text) == {keywords[0]} + Matched(rest, text);
      } else {
        assert Matched(keywords, text) == Matched(rest, text);
      }
    }
  }

  /** How many distinct delay keywords the lower-cased message mentions. */
  function DelayScore(text: string): nat
  {
    |Matched(DelayKeywords, ToLower(text))|
  }

  /** How many distinct cost keywords the lower-cased message mentions. */
  function CostScore(text: string): nat
  {
    |Matched(CostKeywords, ToLower(text))|
  }

  /** `detectIntent`: the domain whose keywords the message mentions strictly more often wins;
      any tie, 0–0 included, gives no intent. */
  function DetectIntent(text: string): (r: Option<Mode>)
    ensures r == Some(Delay) <==> DelayScore(text) > CostScore(text)
    ensures r == Some(CostOverrun) <==> CostScore(text) > DelayScore(text)
    ensures r == None <==> DelayScore(text) == CostScore(text)
  {
    var lower := ToLower(text);
    var delayMatches := CountMatches(DelayKeywords, lower);
    var costMatches := CountMatches(CostKeywords, lower);
    CountIsDistinctMatches(DelayKeywords, lower);
    CountIsDistinctMatches(CostKeywords, lower);
    if delayMatches > costMatches && delayMatches > 0 then Some(Delay)
    else if costMatches > delayMatches && costMatches > 0 then Some(CostOverrun)
    else None
  }

  // ---------------------------------------------------------------- value parser

  /** `processFieldValue`: a number field holds what `parseFloat` reads (nothing when it reads
      NaN); a select field holds the trimmed text, whatever it is. */
  function ProcessFieldValue(field: FieldSpec, value: string, parseFloat: string -> Option<real>): (r: Option<Value>)
    ensures field.kind.Number? ==> (r.Some? <==> parseFloat(value).Some?)
    ensures r.Some? ==> (if field.kind.Number? then r.value == Num(parseFloat(value).value) else r.value == Str(Trim(value)))
    ensures !field.kind.Number? ==> r == Some(Str(Trim(value)))
  {
    if field.kind.Number? then
      match parseFloat(value)
      case None => None
      case Some(x) => Some(Num(x))
    else
      Some(Str(Trim(value)))
  }

  /** `collectField` rejects a value that parses to null or to the empty string. */
  predicate Acceptable(r: Option<Value>)
  {
    r.Some? && r.value != Str("")
  }

  /** An accepted answer to a registry field has the kind the field asks for. */
  lemma {:induction false} AcceptedHasKind(m: Mode, field: FieldSpec, value: string, parseFloat: string -> Option<real>)
    requires field in RequiredFields(m) || field in OptionalFields(m)
    requires Acceptable(ProcessFieldValue(field, value, parseFloat))
    ensures HasKind(field.key, ProcessFieldValue(field, value, parseFloat).value)
  {
    RegistryShape(m);
  }

  /** A select answer is accepted exactly when it is not all whitespace; it is then the trimmed
      text. */
  lemma SelectAcceptedIffNonBlank(field: FieldSpec, value: string, parseFloat: string -> Option<real>)
    requires field.kind.Select?
    ensures Acceptable(ProcessFieldValue(field, value, parseFloat)) <==> !AllSpace(value)
    ensures !AllSpace(value) ==> ProcessFieldValue(field, value, parseFloat) == Some(Str(Trim(value)))
  {
    TrimEmptyIffAllSpace(value);
  }
}
