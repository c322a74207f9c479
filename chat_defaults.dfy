/** The two default tables of the chat assistant, field by field: what each optional field of
    an imputed payload `q` holds when the user left it falsy in the collected payload `p`.
    `ImputeIsImputed` shows that `Impute` produces exactly such a `q`. */
module ChatDefaults {
  import opened Values
  import opened ChatFields
  import opened ChatImputation

  /** Delay: 0.6 and 0.2 of the project cost. */
  lemma DelayCostShares(p: Payload, q: Payload)
    requires Imputed(Some(Delay), p, q)
    requires NumericFields(p) && Truthy(p, FinalProjectCost)
    ensures !Truthy(p, TotalIncurredCost) ==> Holds(q, TotalIncurredCost, Num(0.6 * NumAt(p, FinalProjectCost)))
    ensures !Truthy(p, TotalLandCost) ==> Holds(q, TotalLandCost, Num(0.2 * NumAt(p, FinalProjectCost)))
  {
    assert Untargeted(FinalProjectCost, DelayRules);
    assert RuleHolds(p, q, DelayRules[0]) && RuleHolds(p, q, DelayRules[1]);
  }

  /** Delay: the floor of half the units as booked units, 1000 square feet per unit. */
  lemma DelayUnitDefaults(p: Payload, q: Payload)
    requires Imputed(Some(Delay), p, q)
    requires NumericFields(p) && Truthy(p, TotalUnits)
    ensures !Truthy(p, BookedUnits) ==> Holds(q, BookedUnits, Num(Floor(0.5 * NumAt(p, TotalUnits))))
    ensures !Truthy(p, TotalSquareFootBuild) ==> Holds(q, TotalSquareFootBuild, Num(1000.0 * NumAt(p, TotalUnits)))
  {
    assert Untargeted(TotalUnits, DelayRules);
    assert RuleHolds(p, q, DelayRules[3]) && RuleHolds(p, q, DelayRules[8]);
  }

  /** Delay: the actual duration defaults to the planned one. */
  lemma DelayActualFromPlanned(p: Payload, q: Payload)
    requires Imputed(Some(Delay), p, q)
    requires Truthy(p, PlannedDurationDays) && !Truthy(p, ActualDurationDays)
    ensures Holds(q, ActualDurationDays, p[PlannedDurationDays])
  {
    assert Untargeted(PlannedDurationDays, DelayRules);
    assert RuleHolds(p, q, DelayRules[5]);
  }

  /** Delay: progress 0.5, land utilisation 0.5, temperature 28 and rain 50. */
  lemma DelayConstants(p: Payload, q: Payload)
    requires Imputed(Some(Delay), p, q)
    ensures !Truthy(p, ProgressRatio) ==> Holds(q, ProgressRatio, Num(0.5))
    ensures !Truthy(p, LandUtilization) ==> Holds(q, LandUtilization, Num(0.5))
    ensures !Truthy(p, AvgTemp) ==> Holds(q, AvgTemp, Num(28.0))
    ensures !Truthy(p, TotalRain) ==> Holds(q, TotalRain, Num(50.0))
  {
    assert RuleHolds(p, q, DelayRules[2]) && RuleHolds(p, q, DelayRules[4]);
    assert RuleHolds(p, q, DelayRules[6]) && RuleHolds(p, q, DelayRules[7]);
  }

  /** Delay: with a falsy project cost the two fields derived from it are left as they were. */
  lemma DelayFalsyCost(p: Payload, q: Payload)
    requires Imputed(Some(Delay), p, q) && !Truthy(p, FinalProjectCost)
    ensures SameAt(p, q, TotalIncurredCost) && SameAt(p, q, TotalLandCost)
  {
    assert Untargeted(FinalProjectCost, DelayRules);
    assert RuleHolds(p, q, DelayRules[0]) && RuleHolds(p, q, DelayRules[1]);
  }

  /** Delay: with falsy units the booked units and the floor area are left as they were. */
  lemma DelayFalsyUnits(p: Payload, q: Payload)
    requires Imputed(Some(Delay), p, q) && !Truthy(p, TotalUnits)
    ensures SameAt(p, q, BookedUnits) && SameAt(p, q, TotalSquareFootBuild)
  {
    assert Untargeted(TotalUnits, DelayRules);
    assert RuleHolds(p, q, DelayRules[3]) && RuleHolds(p, q, DelayRules[8]);
  }

  /** Delay: with a falsy planned duration the actual duration is left as it was. */
  lemma DelayFalsyPlanned(p: Payload, q: Payload)
    requires Imputed(Some(Delay), p, q) && !Truthy(p, PlannedDurationDays)
    ensures SameAt(p, q, ActualDurationDays)
  {
    assert Untargeted(PlannedDurationDays, DelayRules);
    assert RuleHolds(p, q, DelayRules[5]);
  }

  /** Cost overrun: 0.65, 0.2, 1.2 and 0.4 of the project cost. */
  lemma CostCostShares(p: Payload, q: Payload)
    requires Imputed(Some(CostOverrun), p, q)
    requires NumericFields(p) && Truthy(p, FinalProjectCost)
    ensures !Truthy(p, TotalIncurredCost) ==> Holds(q, TotalIncurredCost, Num(0.65 * NumAt(p, FinalProjectCost)))
    ensures !Truthy(p, TotalLandCost) ==> Holds(q, TotalLandCost, Num(0.2 * NumAt(p, FinalProjectCost)))
    ensures !Truthy(p, TotalSellingAmount) ==> Holds(q, TotalSellingAmount, Num(1.2 * NumAt(p, FinalProjectCost)))
    ensures !Truthy(p, TotalDevelopCost) ==> Holds(q, TotalDevelopCost, Num(0.4 * NumAt(p, FinalProjectCost)))
  {
    assert Untargeted(FinalProjectCost, CostRules);
    assert RuleHolds(p, q, CostRules[0]) && RuleHolds(p, q, CostRules[1]);
    assert RuleHolds(p, q, CostRules[2]) && RuleHolds(p, q, CostRules[3]);
  }

  /** Cost overrun: 0.45 and 0.7 of the selling amount as it stands after imputation, which
      is the user's value when truthy and 1.2 of the project cost otherwise. */
  lemma CostFromSelling(p: Payload, q: Payload)
    requires Imputed(Some(CostOverrun), p, q)
    requires NumericFields(p) && Truthy(q, TotalSellingAmount)
    ensures !Truthy(p, TotalReceivedAmount) ==> Holds(q, TotalReceivedAmount, Num(0.45 * NumAt(q, TotalSellingAmount)))
    ensures !Truthy(p, BookedSellingAmount) ==> Holds(q, BookedSellingAmount, Num(0.7 * NumAt(q, TotalSellingAmount)))
  {
    assert Untargeted(FinalProjectCost, CostRules);
    assert RuleHolds(p, q, CostRules[2]);
    assert q[TotalSellingAmount].Num?;
    assert RuleHolds(p, q, CostRules[4]) && RuleHolds(p, q, CostRules[5]);
  }

  /** Cost overrun: the floor of 0.6 of the units as booked units, 1000 square feet per unit. */
  lemma CostUnitDefaults(p: Payload, q: Payload)
    requires Imputed(Some(CostOverrun), p, q)
    requires NumericFields(p) && Truthy(p, TotalUnits)
    ensures !Truthy(p, BookedUnits) ==> Holds(q, BookedUnits, Num(Floor(0.6 * NumAt(p, TotalUnits))))
    ensures !Truthy(p, TotalSquareFootBuild) ==> Holds(q, TotalSquareFootBuild, Num(1000.0 * NumAt(p, TotalUnits)))
  {
    assert Untargeted(TotalUnits, CostRules);
    assert RuleHolds(p, q, CostRules[6]) && RuleHolds(p, q, CostRules[11]);
  }

  /** Cost overrun: progress 0.5, land utilisation 0.8, temperature 28 and rain 50. */
  lemma CostConstants(p: Payload, q: Payload)
    requires Imputed(Some(CostOverrun), p, q)
    ensures !Truthy(p, ProgressRatio) ==> Holds(q, ProgressRatio, Num(0.5))
    ensures !Truthy(p, LandUtilization) ==> Holds(q, LandUtilization, Num(0.8))
    ensures !Truthy(p, AvgTemp) ==> Holds(q, AvgTemp, Num(28.0))
    ensures !Truthy(p, TotalRain) ==> Holds(q, TotalRain, Num(50.0))
  {
    assert RuleHolds(p, q, CostRules[7]) && RuleHolds(p, q, CostRules[8]);
    assert RuleHolds(p, q, CostRules[9]) && RuleHolds(p, q, CostRules[10]);
  }

  /** Cost overrun: with a falsy project cost the four fields derived from it are left as they
      were. */
  lemma CostFalsyCost(p: Payload, q: Payload)
    requires Imputed(Some(CostOverrun), p, q) && !Truthy(p, FinalProjectCost)
    ensures SameAt(p, q, TotalIncurredCost) && SameAt(p, q, TotalLandCost)
    ensures SameAt(p, q, TotalSellingAmount) && SameAt(p, q, TotalDevelopCost)
  {
    assert Untargeted(FinalProjectCost, CostRules);
    assert RuleHolds(p, q, CostRules[0]) && RuleHolds(p, q, CostRules[1]);
    assert RuleHolds(p, q, CostRules[2]) && RuleHolds(p, q, CostRules[3]);
  }

  /** Cost overrun: with falsy units the booked units and the floor area are left as they were. */
  lemma CostFalsyUnits(p: Payload, q: Payload)
    requires Imputed(Some(CostOverrun), p, q) && !Truthy(p, TotalUnits)
    ensures SameAt(p, q, BookedUnits) && SameAt(p, q, TotalSquareFootBuild)
  {
    assert Untargeted(TotalUnits, CostRules);
    assert RuleHolds(p, q, CostRules[6]) && RuleHolds(p, q, CostRules[11]);
  }
}
