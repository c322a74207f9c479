/** The input validator that runs before every cost prediction: required fields must be
    present, and six numeric fields must lie within fixed bounds. */
module FeatureValidation {
  import opened Values

  /** A cell of the feature frame. `Blank` is a missing value (NaN or None). */
  datatype Cell = Number(x: real) | Text(s: string) | Blank

  /** The single row of the feature frame. A key that is not a column is absent. */
  type Row = map<Key, Cell>

  datatype Bounds = Bounds(min: real, max: real)

  /** One validation issue; its text names the field and, for a bounds issue, the value and
      the bound it breaks. */
  datatype Issue =
    | RequiredMissing(field: Key)
    | BelowMinimum(field: Key, value: real, min: real)
    | AboveMaximum(field: Key, value: real, max: real)

  /** The bounded numeric fields, in the order they are checked. */
  const NumericBounds: seq<(Key, Bounds)> := [
    (FinalProjectCost, Bounds(100000.0, 500000000000.0)),
    (ProgressRatio, Bounds(0.0, 1.2)),
    (LandUtilization, Bounds(0.0, 2.0)),
    (TotalUnits, Bounds(1.0, 200000.0)),
    (BookedUnits, Bounds(0.0, 200000.0)),
    (PlannedDurationDays, Bounds(30.0, 10000.0))
  ]

  /** The fields that must be present, in the order they are checked. */
  const RequiredFields: seq<Key> := [
    FinalProjectCost, TotalUnits, BookedUnits, TotalSellingAmount, TotalReceivedAmount,
    PlannedDurationDays, PromoterType, FinalProjectType, DistrictType
  ]

  /** `pd.isna(row.get(field))`. */
  predicate IsMissing(row: Row, k: Key)
  {
    k !in row || row[k].Blank?
  }

  /** The bounds checks compare numbers: a bounded column holds a number or nothing. */
  predicate BoundedAreNumbers(row: Row, table: seq<(Key, Bounds)>)
  {
    forall i :: 0 <= i < |table| && !IsMissing(row, table[i].0) ==> row[table[i].0].Number?
  }

  /** The required-field issues for `fields`, one per missing field, in order. */
  function RequiredIssues(row: Row, fields: seq<Key>): seq<Issue>
  {
    if fields == [] then []
    else
      var last := fields[|fields| - 1];
      RequiredIssues(row, fields[..|fields| - 1]) + (if IsMissing(row, last) then [RequiredMissing(last)] else [])
  }

  /** The issues one bounded field raises: none when it is missing; otherwise one for a value
      below the minimum and one for a value above the maximum. */
  function FieldBoundIssues(row: Row, k: Key, b: Bounds): seq<Issue>
    requires !IsMissing(row, k) ==> row[k].Number?
  {
    if IsMissing(row, k) then []
    else
      var x := row[k].x;
      (if x < b.min then [BelowMinimum(k, x, b.min)] else [])
      + (if x > b.max then [AboveMaximum(k, x, b.max)] else [])
  }

  /** The bounds issues for `table`, field by field, in order. */
  function BoundIssues(row: Row, table: seq<(Key, Bounds)>): seq<Issue>
    requires BoundedAreNumbers(row, table)
  {
    if table == [] then []
    else
      var last := table[|table| - 1];
      BoundIssues(row, table[..|table| - 1]) + FieldBoundIssues(row, last.0, last.1)
  }

  /** All the issues of a row: the required-field issues, then the bounds issues. */
  function Issues(row: Row): seq<Issue>
    requires BoundedAreNumbers(row, NumericBounds)
  {
    RequiredIssues(row, RequiredFields) + BoundIssues(row, NumericBounds)
  }

  /** `DataValidator.validate`: the row is valid exactly when it raises no issue. */
  method Validate(row: Row) returns (isValid: bool, issues: seq<Issue>)
    requires BoundedAreNumbers(row, NumericBounds)
    ensures issues == Issues(row)
    ensures isValid <==> issues == []
  {
    var required := CheckRequired(row, RequiredFields);
    var bounds := CheckBounds(row, NumericBounds);
    issues := required + bounds;
    isValid := issues == [];
  }

  /** The loop over the required fields. */
  method CheckRequired(row: Row, fields: seq<Key>) returns (issues: seq<Issue>)
    ensures issues == RequiredIssues(row, fields)
  {
    issues := [];
    for i := 0 to |fields|
      invariant issues == RequiredIssues(row, fields[..i])
    {
      var field := fields[i];
      if IsMissing(row, field) {
        issues := issues + [RequiredMissing(field)];
      }
      assert fields[..i + 1][..i] == fields[..i];
    }
    assert fields[..|fields|] == fields;
  }

  /** The loop over the bounded fields. */
  method CheckBounds(row: Row, table: seq<(Key, Bounds)>) returns (issues: seq<Issue>)
    requires BoundedAreNumbers(row, table)
    ensures issues == BoundIssues(row, table)
  {
    issues := [];
    for i := 0 to |table|
      invariant BoundedAreNumbers(row, table[..i])
      invariant issues == BoundIssues(row, table[..i])
    {
      var (field, bounds) := table[i];
      assert table[..i + 1][..i] == table[..i];
      assert BoundedAreNumbers(row, table[..i + 1]);
      if !IsMissing(row, field) {
        var value := row[field].x;
        if value < bounds.min {
          issues := issues + [BelowMinimum(field, value, bounds.min)];
        }
        if value > bounds.max {
          issues := issues + [AboveMaximum(field, value, bounds.max)];
        }
      }
    }
    assert table[..|table|] == table;
  }

  /** Exactly one required-field issue per missing field, and only for fields in the list. */
  lemma {:induction false} RequiredIssuesExact(row: Row, fields: seq<Key>)
    ensures forall issue :: issue in RequiredIssues(row, fields) ==> issue.RequiredMissing?
    ensures forall k :: RequiredMissing(k) in RequiredIssues(row, fields) <==> k in fields && IsMissing(row, k)
    ensures |RequiredIssues(row, fields)| == |MissingFields(row, fields)|
  {
    if fields != [] {
      var init := fields[..|fields| - 1];
      RequiredIssuesExact(row, init);
      assert fields == init + [fields[|fields| - 1]];
    }
  }

  /** The missing fields among `fields`, in order. */
  function MissingFields(row: Row, fields: seq<Key>): seq<Key>
  {
    if fields == [] then []
    else
      var last := fields[|fields| - 1];
      MissingFields(row, fields[..|fields| - 1]) + (if IsMissing(row, last) then [last] else [])
  }

  /** Bounds issues concern present fields of the table only, never a missing one, and are
      never required-field issues. */
  lemma {:induction false} BoundIssuesPresent(row: Row, table: seq<(Key, Bounds)>)
    requires BoundedAreNumbers(row, table)
    ensures forall issue :: issue in BoundIssues(row, table) ==>
      !issue.RequiredMissing? && !IsMissing(row, issue.field)
      && exists i :: 0 <= i < |table| && table[i].0 == issue.field
  {
    if table != [] {
      var init := table[..|table| - 1];
      assert BoundedAreNumbers(row, init) by {
        forall i | 0 <= i < |init| && !IsMissing(row, init[i].0) ensures row[init[i].0].Number? {
          assert init[i] == table[i];
        }
      }
      BoundIssuesPresent(row, init);
      forall issue | issue in BoundIssues(row, table)
        ensures !issue.RequiredMissing? && !IsMissing(row, issue.field)
        ensures exists i :: 0 <= i < |table| && table[i].0 == issue.field
      {
        if issue in BoundIssues(row, init) {
          var i :| 0 <= i < |init| && init[i].0 == issue.field;
          assert table[i] == init[i];
        } else {
          assert table[|table| - 1].0 == issue.field;
        }
      }
    }
  }

  /** The required-field issues come first: every issue before the first bounds issue is a
      required-field issue, and none after it is. */
  lemma RequiredFirst(row: Row)
    requires BoundedAreNumbers(row, NumericBounds)
    ensures var n := |MissingFields(row, RequiredFields)|;
      && n <= |Issues(row)|
      && (forall i :: 0 <= i < n ==> Issues(row)[i].RequiredMissing?)
      && (forall i :: n <= i < |Issues(row)| ==> !Issues(row)[i].RequiredMissing?)
  {
    RequiredIssuesExact(row, RequiredFields);
    BoundIssuesPresent(row, NumericBounds);
    var r := RequiredIssues(row, RequiredFields);
    var b := BoundIssues(row, NumericBounds);
    forall i | 0 <= i < |r| ensures Issues(row)[i].RequiredMissing? {
      assert Issues(row)[i] == r[i] && r[i] in r;
    }
    forall i | |r| <= i < |Issues(row)| ensures !Issues(row)[i].RequiredMissing? {
      assert Issues(row)[i] == b[i - |r|] && b[i - |r|] in b;
    }
  }

  /** A present bounded field raises a "below minimum" issue exactly when it is below the
      minimum, an "above maximum" issue exactly when it is above the maximum, and so none when
      it lies within its bounds; with its minimum at most its maximum it never raises both. */
  lemma FieldBoundsExact(row: Row, k: Key, b: Bounds)
    requires !IsMissing(row, k) && row[k].Number?
    ensures var x := row[k].x;
      && (BelowMinimum(k, x, b.min) in FieldBoundIssues(row, k, b) <==> x < b.min)
      && (AboveMaximum(k, x, b.max) in FieldBoundIssues(row, k, b) <==> x > b.max)
      && (b.min <= x <= b.max ==> FieldBoundIssues(row, k, b) == [])
      && (b.min <= b.max ==> |FieldBoundIssues(row, k, b)| <= 1)
  {
  }

  /** Every bound in the table has its minimum at most its maximum. */
  lemma BoundsOrdered()
    ensures forall i :: 0 <= i < |NumericBounds| ==> NumericBounds[i].1.min <= NumericBounds[i].1.max
  {
  }
}
