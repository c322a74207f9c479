/** The chat assistant's default imputation (`buildPayload` in ChatBot.jsx): a fixed chain of
    rules per domain, each filling one optional field that is falsy in the payload, from a
    truthy source field or from a constant. The chain is given as data (`DelayRules`,
    `CostRules`) and applied left to right by `ApplyRules`; the lemmas describe what any such
    chain does and then what the two tables do. */
module ChatImputation {
  import opened Values
  import opened ChatFields

  /** How a rule computes the value it fills in. */
  datatype Default =
    | Scaled(source: Key, ratio: real)    // payload.source * ratio
    | Floored(source: Key, ratio: real)   // Math.floor(payload.source * ratio)
    | Copied(source: Key)                 // payload.source
    | Constant(value: real)

  /** `if (!payload.target && payload.source) payload.target = <default>`, or without the
      source test for a constant. */
  datatype Rule = Rule(target: Key, default: Default)

  /** JavaScript `Math.floor(v * ratio)`. */
  function FloorTimes(v: Value, ratio: real): Value
  {
    if v.Num? then Num(Floor(v.x * ratio)) else NaN
  }

  /** The value a derived default computes from its source value. */
  function Derive(d: Default, v: Value): Value
    requires !d.Constant?
  {
    match d
    case Scaled(_, ratio) => Times(v, ratio)
    case Floored(_, ratio) => FloorTimes(v, ratio)
    case Copied(_) => v
  }

  function ApplyRule(p: Payload, r: Rule): Payload
  {
    if Truthy(p, r.target) then p
    else
      match r.default
      case Constant(c) => p[r.target := Num(c)]
      case _ =>
        if Truthy(p, r.default.source) then p[r.target := Derive(r.default, p[r.default.source])] else p
  }

  /** The rules applied one after the other, first rule first. */
  function ApplyRules(p: Payload, rules: seq<Rule>): (q: Payload)
    decreases |rules|
    ensures q.Keys <= p.Keys + Targets(rules)
  {
    if rules == [] then p
    else
      assert Targets(rules[1..]) <= Targets(rules) by {
        forall k | k in Targets(rules[1..]) ensures k in Targets(rules) {
          var i :| 0 <= i < |rules[1..]| && rules[1..][i].target == k;
          assert rules[i + 1].target == k;
        }
      }
      ApplyRules(ApplyRule(p, rules[0]), rules[1..])
  }

  const DelayRules: seq<Rule> := [
    Rule(TotalIncurredCost, Scaled(FinalProjectCost, 0.6)),
    Rule(TotalLandCost, Scaled(FinalProjectCost, 0.2)),
    Rule(ProgressRatio, Constant(0.5)),
    Rule(BookedUnits, Floored(TotalUnits, 0.5)),
    Rule(LandUtilization, Constant(0.5)),
    Rule(ActualDurationDays, Copied(PlannedDurationDays)),
    Rule(AvgTemp, Constant(28.0)),
    Rule(TotalRain, Constant(50.0)),
    Rule(TotalSquareFootBuild, Scaled(TotalUnits, 1000.0))
  ]

  const CostRules: seq<Rule> := [
    Rule(TotalIncurredCost, Scaled(FinalProjectCost, 0.65)),
    Rule(TotalLandCost, Scaled(FinalProjectCost, 0.2)),
    Rule(TotalSellingAmount, Scaled(FinalProjectCost, 1.2)),
    Rule(TotalDevelopCost, Scaled(FinalProjectCost, 0.4)),
    Rule(TotalReceivedAmount, Scaled(TotalSellingAmount, 0.45)),
    Rule(BookedSellingAmount, Scaled(TotalSellingAmount, 0.7)),
    Rule(BookedUnits, Floored(TotalUnits, 0.6)),
    Rule(ProgressRatio, Constant(0.5)),
    Rule(LandUtilization, Constant(0.8)),
    Rule(AvgTemp, Constant(28.0)),
    Rule(TotalRain, Constant(50.0)),
    Rule(TotalSquareFootBuild, Scaled(TotalUnits, 1000.0))
  ]

  /** `buildPayload` takes the delay branch only in delay mode, the cost branch otherwise. */
  function RulesFor(mode: Option<Mode>): seq<Rule>
  {
    if mode == Some(Delay) then DelayRules else CostRules
  }

  /** The payload `buildPayload` sends for the collected data. */
  function Impute(mode: Option<Mode>, collected: Payload): (payload: Payload)
    ensures collected.Keys <= payload.Keys <= collected.Keys + Targets(RulesFor(mode))
  {
    var payload := ApplyRules(collected, RulesFor(mode));
    assert collected.Keys <= payload.Keys by { KeysGrow(collected, RulesFor(mode)); }
    payload
  }

  function Targets(rules: seq<Rule>): set<Key>
  {
    set i | 0 <= i < |rules| :: rules[i].target
  }

  /** No rule of the chain fills `k`. */
  predicate Untargeted(k: Key, rules: seq<Rule>)
  {
    forall i :: 0 <= i < |rules| ==> rules[i].target != k
  }

  /** Every target is filled by one rule only. */
  predicate DistinctTargets(rules: seq<Rule>)
  {
    forall i, j :: 0 <= i < j < |rules| ==> rules[i].target != rules[j].target
  }

  /** No rule reads a field that it or a later rule fills. */
  predicate SourcesSettled(rules: seq<Rule>)
  {
    forall i, j :: 0 <= i <= j < |rules| && !rules[i].default.Constant? ==>
      rules[i].default.source != rules[j].target
  }

  /** The shape of chain both tables have. */
  predicate Ordered(rules: seq<Rule>)
  {
    DistinctTargets(rules) && SourcesSettled(rules)
  }

  /** `q` holds at `k` exactly what `p` holds (or lacks) there. */
  predicate SameAt(p: Payload, q: Payload, k: Key)
  {
    (k in p <==> k in q) && (k in p ==> p[k] == q[k])
  }

  // ---------------------------------------------------------------- any chain

  lemma {:induction false} ApplyRulesSnoc(p: Payload, rules: seq<Rule>, r: Rule)
    decreases |rules|
    ensures ApplyRules(p, rules + [r]) == ApplyRule(ApplyRules(p, rules), r)
  {
    if rules != [] {
      assert (rules + [r])[1..] == rules[1..] + [r];
      ApplyRulesSnoc(ApplyRule(p, rules[0]), rules[1..], r);
    }
  }

  /** A field that no rule targets is left exactly as it was. */
  lemma {:induction false} UntargetedUnchanged(p: Payload, rules: seq<Rule>, k: Key)
    decreases |rules|
    requires Untargeted(k, rules)
    ensures SameAt(p, ApplyRules(p, rules), k)
  {
    if rules != [] {
      assert rules[0].target != k;
      assert Untargeted(k, rules[1..]) by {
        forall i | 0 <= i < |rules[1..]| ensures rules[1..][i].target != k {
          assert rules[1..][i] == rules[i + 1];
        }
      }
      UntargetedUnchanged(ApplyRule(p, rules[0]), rules[1..], k);
    }
  }

  /** A truthy field is never overwritten. */
  lemma {:induction false} TruthyKept(p: Payload, rules: seq<Rule>, k: Key)
    decreases |rules|
    requires Truthy(p, k)
    ensures k in ApplyRules(p, rules) && ApplyRules(p, rules)[k] == p[k]
  {
    if rules != [] {
      TruthyKept(ApplyRule(p, rules[0]), rules[1..], k);
    }
  }

  /** Fields are only ever added or overwritten, never removed. */
  lemma {:induction false} KeysGrow(p: Payload, rules: seq<Rule>)
    decreases |rules|
    ensures p.Keys <= ApplyRules(p, rules).Keys
  {
    if rules != [] {
      KeysGrow(ApplyRule(p, rules[0]), rules[1..]);
    }
  }

  /** What rule `r` has left in `q`, the final payload, given the payload `p` it started from:
      a truthy target is kept; otherwise a constant is stored; otherwise, when the source is
      truthy in `q` the target holds the value derived from it, and when it is not the target is
      left as it was. */
  predicate RuleHolds(p: Payload, q: Payload, r: Rule)
  {
    if Truthy(p, r.target) then r.target in q && q[r.target] == p[r.target]
    else
      match r.default
      case Constant(c) => r.target in q && q[r.target] == Num(c)
      case _ =>
        if Truthy(q, r.default.source) then
          r.target in q && q[r.target] == Derive(r.default, q[r.default.source])
        else SameAt(p, q, r.target)
  }

  /** In an ordered chain every rule holds of the final payload. Together with
      `UntargetedUnchanged` this determines the result of the chain completely. */
  lemma {:induction false} AllRulesHold(p: Payload, rules: seq<Rule>)
    decreases |rules|
    requires Ordered(rules)
    ensures forall i :: 0 <= i < |rules| ==> RuleHolds(p, ApplyRules(p, rules), rules[i])
  {
    if rules != [] {
      var r, rest := rules[0], rules[1..];
      var p1 := ApplyRule(p, r);
      var q := ApplyRules(p1, rest);
      assert Ordered(rest) by {
        forall i, j | 0 <= i < j < |rest| ensures rest[i].target != rest[j].target {
          assert rest[i] == rules[i + 1] && rest[j] == rules[j + 1];
        }
        forall i, j | 0 <= i <= j < |rest| && !rest[i].default.Constant?
          ensures rest[i].default.source != rest[j].target
        {
          assert rest[i] == rules[i + 1] && rest[j] == rules[j + 1];
        }
      }
      AllRulesHold(p1, rest);
      assert Untargeted(r.target, rest) && (!r.default.Constant? ==> Untargeted(r.default.source, rest)) by {
        forall j | 0 <= j < |rest| ensures rest[j].target != r.target {
          assert rest[j] == rules[j + 1];
        }
        if !r.default.Constant? {
          forall j | 0 <= j < |rest| ensures rest[j].target != r.default.source {
            assert rest[j] == rules[j + 1];
          }
        }
      }
      UntargetedUnchanged(p1, rest, r.target);
      if !r.default.Constant? {
        UntargetedUnchanged(p1, rest, r.default.source);
        assert r.default.source != r.target;
      }
      assert RuleHolds(p, q, r);
      forall i | 1 <= i < |rules| ensures RuleHolds(p, q, rules[i]) {
        var ri := rules[i];
        assert ri == rest[i - 1];
        assert ri.target != r.target;
        assert RuleHolds(p1, q, ri);
        assert SameAt(p, p1, ri.target);
      }
    }
  }

  /** Rule `i` of an ordered chain holds of the final payload. */
  lemma RuleAt(p: Payload, rules: seq<Rule>, i: nat)
    requires Ordered(rules) && i < |rules|
    ensures RuleHolds(p, ApplyRules(p, rules), rules[i])
  {
    AllRulesHold(p, rules);
  }

  /** The declarative reading of a chain: every rule holds of `q`, and every field no rule
      fills is as in `p`. */
  predicate Satisfies(p: Payload, q: Payload, rules: seq<Rule>)
  {
    (forall i :: 0 <= i < |rules| ==> RuleHolds(p, q, rules[i])) &&
    (forall k :: Untargeted(k, rules) ==> SameAt(p, q, k))
  }

  /** Applying an ordered chain yields a payload that satisfies it. */
  lemma ApplyRulesSatisfies(p: Payload, rules: seq<Rule>)
    requires Ordered(rules)
    ensures Satisfies(p, ApplyRules(p, rules), rules)
  {
    AllRulesHold(p, rules);
    forall k | Untargeted(k, rules) ensures SameAt(p, ApplyRules(p, rules), k) {
      UntargetedUnchanged(p, rules, k);
    }
  }

  /** Two payloads satisfying an ordered chain agree on the targets of its first `n` rules. */
  lemma {:induction false} AgreeOnTargets(p: Payload, q1: Payload, q2: Payload, rules: seq<Rule>, n: nat)
    requires Ordered(rules) && n <= |rules|
    requires Satisfies(p, q1, rules) && Satisfies(p, q2, rules)
    ensures forall i :: 0 <= i < n ==> SameAt(q1, q2, rules[i].target)
  {
    if n > 0 {
      AgreeOnTargets(p, q1, q2, rules, n - 1);
      var r := rules[n - 1];
      assert RuleHolds(p, q1, r) && RuleHolds(p, q2, r);
      if !Truthy(p, r.target) && !r.default.Constant? {
        var s := r.default.source;
        if !Untargeted(s, rules) {
          var j :| 0 <= j < |rules| && rules[j].target == s;
          assert j < n - 1;
          assert SameAt(q1, q2, rules[j].target);
        }
        assert SameAt(q1, q2, s);
      }
    }
  }

  /** An ordered chain has exactly one satisfying payload, so `Satisfies` specifies
      `ApplyRules` completely. */
  lemma SatisfiesUnique(p: Payload, q1: Payload, q2: Payload, rules: seq<Rule>)
    requires Ordered(rules)
    requires Satisfies(p, q1, rules) && Satisfies(p, q2, rules)
    ensures q1 == q2
  {
    AgreeOnTargets(p, q1, q2, rules, |rules|);
    forall k ensures SameAt(q1, q2, k) {
      if !Untargeted(k, rules) {
        var i :| 0 <= i < |rules| && rules[i].target == k;
        assert SameAt(q1, q2, rules[i].target);
      }
    }
    assert q1.Keys == q2.Keys by {
      forall k ensures k in q1 <==> k in q2 { assert SameAt(q1, q2, k); }
    }
    forall k | k in q1 ensures q1[k] == q2[k] { assert SameAt(q1, q2, k); }
  }

  /** Rule `r` changes nothing in a payload where it already holds against itself. */
  predicate Settled(q: Payload, r: Rule)
  {
    ApplyRule(q, r) == q
  }

  lemma {:induction false} SettledAfterChain(p: Payload, rules: seq<Rule>, i: nat)
    requires Ordered(rules) && i < |rules|
    ensures Settled(ApplyRules(p, rules), rules[i])
  {
    AllRulesHold(p, rules);
    var q, r := ApplyRules(p, rules), rules[i];
    assert RuleHolds(p, q, r);
    if !r.default.Constant? {
      assert r.default.source != r.target;
    }
  }

  lemma {:induction false} SettledFixpoint(q: Payload, rules: seq<Rule>)
    decreases |rules|
    requires forall i :: 0 <= i < |rules| ==> Settled(q, rules[i])
    ensures ApplyRules(q, rules) == q
  {
    if rules != [] {
      assert Settled(q, rules[0]);
      SettledFixpoint(q, rules[1..]);
    }
  }

  /** Applying an ordered chain a second time changes nothing. */
  lemma {:induction false} ApplyRulesIdempotent(p: Payload, rules: seq<Rule>)
    requires Ordered(rules)
    ensures ApplyRules(ApplyRules(p, rules), rules) == ApplyRules(p, rules)
  {
    forall i | 0 <= i < |rules| ensures Settled(ApplyRules(p, rules), rules[i]) {
      SettledAfterChain(p, rules, i);
    }
    SettledFixpoint(ApplyRules(p, rules), rules);
  }

  // ---------------------------------------------------------------- the two tables

  lemma DelayTargetsDistinct()
    ensures DistinctTargets(DelayRules)
  {
  }

  lemma DelaySourcesSettled()
    ensures SourcesSettled(DelayRules)
  {
    var r := DelayRules;
    assert Untargeted(FinalProjectCost, r) && Untargeted(TotalUnits, r) && Untargeted(PlannedDurationDays, r);
  }

  lemma CostTargetsDistinct()
    ensures DistinctTargets(CostRules)
  {
  }

  lemma CostSourcesSettled()
    ensures SourcesSettled(CostRules)
  {
    var r := CostRules;
    assert Untargeted(FinalProjectCost, r) && Untargeted(TotalUnits, r);
    forall i, j | 0 <= i <= j < |r| && !r[i].default.Constant? ensures r[i].default.source != r[j].target {
      if i == 4 || i == 5 {
        assert r[i].default.source == TotalSellingAmount;
      }
    }
  }

  /** Both tables are ordered chains. */
  lemma TablesOrdered()
    ensures Ordered(DelayRules) && Ordered(CostRules)
  {
    DelayTargetsDistinct();
    DelaySourcesSettled();
    CostTargetsDistinct();
    CostSourcesSettled();
  }

  lemma DelayTargetSet()
    ensures Targets(DelayRules) == {TotalIncurredCost, TotalLandCost, ProgressRatio, BookedUnits,
      LandUtilization, ActualDurationDays, AvgTemp, TotalRain, TotalSquareFootBuild}
  {
    var r := DelayRules;
    assert Targets(r) == {r[0].target, r[1].target, r[2].target, r[3].target, r[4].target,
      r[5].target, r[6].target, r[7].target, r[8].target};
  }

  lemma DelayOptionalKeySet()
    ensures KeysOf(DelayOptionalFields) == {TotalIncurredCost, TotalLandCost, BudgetOverrunPercent,
      ProgressRatio, BookedUnits, LandUtilization, ActualDurationDays, AvgTemp, TotalRain, TotalSquareFootBuild}
  {
    var f := DelayOptionalFields;
    assert KeysOf(f) == {f[0].key, f[1].key, f[2].key, f[3].key, f[4].key, f[5].key, f[6].key,
      f[7].key, f[8].key, f[9].key};
  }

  lemma CostTargetSet()
    ensures Targets(CostRules) == {TotalIncurredCost, TotalLandCost, TotalSellingAmount, TotalDevelopCost,
      TotalReceivedAmount, BookedSellingAmount, BookedUnits, ProgressRatio, LandUtilization, AvgTemp,
      TotalRain, TotalSquareFootBuild}
  {
    var c := CostRules;
    assert Targets(c) == {c[0].target, c[1].target, c[2].target, c[3].target, c[4].target,
      c[5].target, c[6].target, c[7].target, c[8].target, c[9].target, c[10].target, c[11].target};
  }

  lemma CostOptionalKeySet()
    ensures KeysOf(CostOptionalFields) == {TotalIncurredCost, TotalLandCost, TotalSellingAmount,
      TotalPayableAmountGovernment, TotalDevelopCost, TotalReceivedAmount, BookedSellingAmount,
      BookedUnits, ProgressRatio, LandUtilization, AvgTemp, TotalRain, TotalSquareFootBuild}
  {
    var g := CostOptionalFields;
    assert KeysOf(g) == {g[0].key, g[1].key, g[2].key, g[3].key, g[4].key, g[5].key, g[6].key,
      g[7].key, g[8].key, g[9].key, g[10].key, g[11].key, g[12].key};
  }

  /** The delay table fills every optional delay field except the budget overrun. */
  lemma DelayTableTargets()
    ensures Targets(DelayRules) == KeysOf(DelayOptionalFields) - {BudgetOverrunPercent}
  {
    DelayTargetSet();
    DelayOptionalKeySet();
  }

  /** The cost table fills every optional cost field except the government payables. */
  lemma CostTableTargets()
    ensures Targets(CostRules) == KeysOf(CostOptionalFields) - {TotalPayableAmountGovernment}
  {
    CostTargetSet();
    CostOptionalKeySet();
  }

  /** `q` is what imputation in `mode` must produce from `p`: the active table, read
      declaratively. */
  predicate Imputed(mode: Option<Mode>, p: Payload, q: Payload)
  {
    Satisfies(p, q, RulesFor(mode))
  }

  /** `Impute` produces the imputed payload, and it is the only one. */
  lemma ImputeIsImputed(mode: Option<Mode>, p: Payload, q: Payload)
    ensures Imputed(mode, p, Impute(mode, p))
    ensures Imputed(mode, p, q) ==> q == Impute(mode, p)
  {
    TablesOrdered();
    ApplyRulesSatisfies(p, RulesFor(mode));
    if Imputed(mode, p, q) {
      SatisfiesUnique(p, q, Impute(mode, p), RulesFor(mode));
    }
  }

  /** Imputing twice gives the same payload as imputing once. */
  lemma ImputeIdempotent(mode: Option<Mode>, collected: Payload)
    ensures Impute(mode, Impute(mode, collected)) == Impute(mode, collected)
  {
    TablesOrdered();
    ApplyRulesIdempotent(collected, RulesFor(mode));
  }

  /** Imputation keeps every truthy value. */
  lemma ImputeKeepsTruthy(mode: Option<Mode>, collected: Payload, k: Key)
    requires Truthy(collected, k)
    ensures Holds(Impute(mode, collected), k, collected[k])
  {
    TruthyKept(collected, RulesFor(mode), k);
  }

  /** Only optional fields of the domain are ever filled. */
  lemma OnlyOptionalTargeted(m: Mode, k: Key)
    requires k !in KeysOf(OptionalFields(m))
    ensures Untargeted(k, RulesFor(Some(m)))
  {
    var rules := RulesFor(Some(m));
    if m == Delay {
      DelayTargetSet();
      DelayOptionalKeySet();
    } else {
      CostTargetSet();
      CostOptionalKeySet();
    }
    forall i | 0 <= i < |rules| ensures rules[i].target != k {
      assert rules[i].target in Targets(rules);
    }
  }

  /** Imputation leaves the required answers and every field outside the domain's optional
      list untouched, and never fills the delay budget overrun or the government payables. */
  lemma ImputeFrame(m: Mode, collected: Payload, k: Key)
    requires k !in KeysOf(OptionalFields(m)) || k == (if m == Delay then BudgetOverrunPercent else TotalPayableAmountGovernment)
    ensures SameAt(collected, Impute(Some(m), collected), k)
  {
    var rules := RulesFor(Some(m));
    if k !in KeysOf(OptionalFields(m)) {
      OnlyOptionalTargeted(m, k);
    } else {
      assert Untargeted(k, rules);
    }
    UntargetedUnchanged(collected, rules, k);
  }

  /** Every field outside the selects holds a number. */
  predicate NumericFields(p: Payload)
  {
    forall k :: k in p && !IsSelectKey(k) ==> p[k].Num?
  }

  /** `q` holds `v` at `k`. */
  predicate Holds(q: Payload, k: Key, v: Value)
  {
    k in q && q[k] == v
  }

  /** The value of a numeric field, 0 when it is absent. */
  function NumAt(p: Payload, k: Key): real
  {
    if k in p && p[k].Num? then p[k].x else 0.0
  }
}
