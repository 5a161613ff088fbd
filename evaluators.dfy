/** Rule condition evaluators: six stateless predicates over the current
    price, the holding's cost basis, the rule threshold and an optional
    indicator value, each with a reason formatter, looked up through a fixed
    registry keyed by rule type. */
module Evaluators {
  import opened Common

  /** The six rule types the registry and the tests use.  The `RuleType`
      enumeration in the source declares only the first four of them. */
  datatype RuleType =
    | PriceBelowCostPct
    | PriceAboveCostPct
    | PriceBelowValue
    | PriceAboveValue
    | RsiBelowValue
    | RsiAboveValue

  const AllRuleTypes: set<RuleType> := {
    PriceBelowCostPct, PriceAboveCostPct, PriceBelowValue,
    PriceAboveValue, RsiBelowValue, RsiAboveValue
  }

  lemma AllRuleTypesComplete(t: RuleType)
    ensures t in AllRuleTypes
  {
  }

  /** The tag string stored in the `rule_type` column. */
  function Tag(t: RuleType): string {
    match t
    case PriceBelowCostPct => "price_below_cost_pct"
    case PriceAboveCostPct => "price_above_cost_pct"
    case PriceBelowValue => "price_below_value"
    case PriceAboveValue => "price_above_value"
    case RsiBelowValue => "rsi_below_value"
    case RsiAboveValue => "rsi_above_value"
  }

  /** `RuleType(s)`: None stands for the ValueError raised on an unknown tag. */
  function ParseRuleType(s: string): (r: Option<RuleType>)
    ensures r.Some? ==> Tag(r.value) == s
    ensures r.None? ==> forall t :: Tag(t) != s
  {
    if s == "price_below_cost_pct" then Some(PriceBelowCostPct)
    else if s == "price_above_cost_pct" then Some(PriceAboveCostPct)
    else if s == "price_below_value" then Some(PriceBelowValue)
    else if s == "price_above_value" then Some(PriceAboveValue)
    else if s == "rsi_below_value" then Some(RsiBelowValue)
    else if s == "rsi_above_value" then Some(RsiAboveValue)
    else
      assert forall t :: Tag(t) != s;
      None
  }

  /** Parsing a stored tag gives back the rule type it was stored from. */
  lemma TagRoundTrip(t: RuleType)
    ensures ParseRuleType(Tag(t)) == Some(t)
  {
  }

  /** One value per evaluator class. */
  datatype Evaluator =
    | PriceBelowCostPctEvaluator
    | PriceAboveCostPctEvaluator
    | PriceBelowValueEvaluator
    | PriceAboveValueEvaluator
    | RsiBelowValueEvaluator
    | RsiAboveValueEvaluator

  /** The rule type an evaluator class is written for. */
  function Handles(e: Evaluator): RuleType {
    match e
    case PriceBelowCostPctEvaluator => PriceBelowCostPct
    case PriceAboveCostPctEvaluator => PriceAboveCostPct
    case PriceBelowValueEvaluator => PriceBelowValue
    case PriceAboveValueEvaluator => PriceAboveValue
    case RsiBelowValueEvaluator => RsiBelowValue
    case RsiAboveValueEvaluator => RsiAboveValue
  }

  /** `EVALUATORS` */
  const Registry: map<RuleType, Evaluator> := map[
    PriceBelowCostPct := PriceBelowCostPctEvaluator,
    PriceAboveCostPct := PriceAboveCostPctEvaluator,
    PriceBelowValue := PriceBelowValueEvaluator,
    PriceAboveValue := PriceAboveValueEvaluator,
    RsiBelowValue := RsiBelowValueEvaluator,
    RsiAboveValue := RsiAboveValueEvaluator
  ]

  lemma RegistryKeys()
    ensures Registry.Keys == AllRuleTypes
  {
    forall t | t in AllRuleTypes ensures t in Registry {
      match t
      case PriceBelowCostPct =>
      case PriceAboveCostPct =>
      case PriceBelowValue =>
      case PriceAboveValue =>
      case RsiBelowValue =>
      case RsiAboveValue =>
    }
  }

  /** `get_evaluator`: total over the six tags, and the evaluator it returns
      is the one written for the requested type. */
  function GetEvaluator(t: RuleType): (r: Option<Evaluator>)
    ensures r.Some?
    ensures Handles(r.value) == t
  {
    RegistryKeys();
    AllRuleTypesComplete(t);
    if t in Registry then Some(Registry[t]) else None
  }

  /** Distinct rule types have distinct evaluators. */
  lemma GetEvaluatorInjective(t: RuleType, u: RuleType)
    requires GetEvaluator(t) == GetEvaluator(u)
    ensures t == u
  {
  }

  // ---------------------------------------------------------------------
  // evaluate
  // ---------------------------------------------------------------------

  /** The guard of both cost-percentage evaluators. */
  predicate HasCostBasis(costBasis: Option<real>) {
    costBasis.Some? && costBasis.value != 0.0
  }

  function DropPct(price: real, cost: real): real
    requires cost != 0.0
  {
    (cost - price) / cost * 100.0
  }

  function GainPct(price: real, cost: real): real
    requires cost != 0.0
  {
    (price - cost) / cost * 100.0
  }

  /** `evaluator.evaluate(current_price, cost_basis, threshold, indicator_value)` */
  function Evaluate(e: Evaluator, price: real, costBasis: Option<real>, threshold: real,
                    indicator: Option<real>): bool
  {
    match e
    case PriceBelowCostPctEvaluator =>
      HasCostBasis(costBasis) && DropPct(price, costBasis.value) >= threshold
    case PriceAboveCostPctEvaluator =>
      HasCostBasis(costBasis) && GainPct(price, costBasis.value) >= threshold
    case PriceBelowValueEvaluator => price <= threshold
    case PriceAboveValueEvaluator => price >= threshold
    case RsiBelowValueEvaluator => indicator.Some? && indicator.value <= threshold
    case RsiAboveValueEvaluator => indicator.Some? && indicator.value >= threshold
  }

  predicate IsCostPct(e: Evaluator) {
    e == PriceBelowCostPctEvaluator || e == PriceAboveCostPctEvaluator
  }

  predicate IsRsi(e: Evaluator) {
    e == RsiBelowValueEvaluator || e == RsiAboveValueEvaluator
  }

  /** With a positive cost basis, the drop rule fires exactly when the price
      is at or under the cost reduced by the threshold percentage. */
  lemma BelowCostPctFires(price: real, cost: real, threshold: real)
    requires cost > 0.0
    ensures Evaluate(PriceBelowCostPctEvaluator, price, Some(cost), threshold, None)
        <==> price <= cost * (1.0 - threshold / 100.0)
  {
    var d := (cost - price) / cost;
    assert d * cost == cost - price;
    if d * 100.0 >= threshold {
      assert d >= threshold / 100.0;
      assert d * cost >= threshold / 100.0 * cost;
    }
    if price <= cost * (1.0 - threshold / 100.0) {
      assert d * cost >= threshold / 100.0 * cost;
      assert d >= threshold / 100.0;
    }
  }

  /** With a positive cost basis, the gain rule fires exactly when the price
      is at or over the cost raised by the threshold percentage. */
  lemma AboveCostPctFires(price: real, cost: real, threshold: real)
    requires cost > 0.0
    ensures Evaluate(PriceAboveCostPctEvaluator, price, Some(cost), threshold, None)
        <==> price >= cost * (1.0 + threshold / 100.0)
  {
    var g := (price - cost) / cost;
    assert g * cost == price - cost;
    if g * 100.0 >= threshold {
      assert g >= threshold / 100.0;
      assert g * cost >= threshold / 100.0 * cost;
    }
    if price >= cost * (1.0 + threshold / 100.0) {
      assert g * cost >= threshold / 100.0 * cost;
      assert g >= threshold / 100.0;
    }
  }

  /** A missing or zero cost basis never fires a cost-percentage rule,
      whatever the price and threshold. */
  lemma CostPctNeedsCostBasis(e: Evaluator, price: real, costBasis: Option<real>,
                              threshold: real, indicator: Option<real>)
    requires IsCostPct(e)
    ensures Evaluate(e, price, costBasis, threshold, indicator) ==>
              HasCostBasis(costBasis)
  {
  }

  /** For a positive cost basis a drop rule that fires keeps firing at any
      lower price and at any lower threshold. */
  lemma BelowCostPctMonotone(price: real, price': real, cost: real,
                             threshold: real, threshold': real)
    requires cost > 0.0 && price' <= price && threshold' <= threshold
    requires Evaluate(PriceBelowCostPctEvaluator, price, Some(cost), threshold, None)
    ensures Evaluate(PriceBelowCostPctEvaluator, price', Some(cost), threshold', None)
  {
    BelowCostPctFires(price, cost, threshold);
    BelowCostPctFires(price', cost, threshold');
    assert cost * (1.0 - threshold / 100.0) <= cost * (1.0 - threshold' / 100.0);
  }

  /** For a positive cost basis a gain rule that fires keeps firing at any
      higher price and at any lower threshold. */
  lemma AboveCostPctMonotone(price: real, price': real, cost: real,
                             threshold: real, threshold': real)
    requires cost > 0.0 && price' >= price && threshold' <= threshold
    requires Evaluate(PriceAboveCostPctEvaluator, price, Some(cost), threshold, None)
    ensures Evaluate(PriceAboveCostPctEvaluator, price', Some(cost), threshold', None)
  {
    AboveCostPctFires(price, cost, threshold);
    AboveCostPctFires(price', cost, threshold');
    assert cost * (1.0 + threshold' / 100.0) <= cost * (1.0 + threshold / 100.0);
  }

  /** The absolute rules read only the price and the threshold, and both
      fire at the boundary price itself. */
  lemma AbsoluteRules(price: real, threshold: real, c: Option<real>, c': Option<real>,
                      i: Option<real>, i': Option<real>)
    ensures Evaluate(PriceBelowValueEvaluator, price, c, threshold, i)
         == Evaluate(PriceBelowValueEvaluator, price, c', threshold, i')
    ensures Evaluate(PriceAboveValueEvaluator, price, c, threshold, i)
         == Evaluate(PriceAboveValueEvaluator, price, c', threshold, i')
    ensures (Evaluate(PriceBelowValueEvaluator, price, c, threshold, i)
             && Evaluate(PriceAboveValueEvaluator, price, c, threshold, i)) <==> price == threshold
    ensures Evaluate(PriceBelowValueEvaluator, price, c, threshold, i)
         || Evaluate(PriceAboveValueEvaluator, price, c, threshold, i)
  {
  }

  /** An RSI rule never fires without an indicator value, and with one it
      reads only that value and the threshold. */
  lemma RsiRules(e: Evaluator, price: real, price': real, c: Option<real>, c': Option<real>,
                 threshold: real, indicator: Option<real>)
    requires IsRsi(e)
    ensures Evaluate(e, price, c, threshold, None) == false
    ensures Evaluate(e, price, c, threshold, indicator)
         == Evaluate(e, price', c', threshold, indicator)
    ensures indicator.Some? && indicator.value == threshold ==>
              Evaluate(e, price, c, threshold, indicator)
  {
  }

  // ---------------------------------------------------------------------
  // format_reason
  // ---------------------------------------------------------------------

  /** The content of a reason string; the rendering of the numbers (`:.2f`,
      `:.1f`, `:.0f`) is not part of the model. */
  datatype Reason =
    | NoCostBasis
    | BelowCost(price: real, dropPct: real, costBasis: real, threshold: real)
    | AboveCost(price: real, gainPct: real, costBasis: real, threshold: real)
    | BelowTarget(price: real, threshold: real)
    | AboveTarget(price: real, threshold: real)
    | RsiUnavailable
    | RsiBelow(rsi: real, threshold: real, zone: string, price: real)
    | RsiAbove(rsi: real, threshold: real, zone: string, price: real)

  /** The reason string.  `{threshold}` of the cost-percentage reasons is
      rendered here with one decimal. */
  function Render(r: Reason): string {
    match r
    case NoCostBasis => "No cost basis available"
    case BelowCost(price, pct, cost, threshold) =>
      "Price $" + FormatFixed(price, 2) + " is " + FormatFixed(pct, 1)
        + "% below cost basis $" + FormatFixed(cost, 2)
        + " (threshold: " + FormatFixed(threshold, 1) + "%)"
    case AboveCost(price, pct, cost, threshold) =>
      "Price $" + FormatFixed(price, 2) + " is " + FormatFixed(pct, 1)
        + "% above cost basis $" + FormatFixed(cost, 2)
        + " (threshold: " + FormatFixed(threshold, 1) + "%)"
    case BelowTarget(price, threshold) =>
      "Price $" + FormatFixed(price, 2) + " dropped below target $" + FormatFixed(threshold, 2)
    case AboveTarget(price, threshold) =>
      "Price $" + FormatFixed(price, 2) + " rose above target $" + FormatFixed(threshold, 2)
    case RsiUnavailable => "RSI data unavailable"
    case RsiBelow(rsi, threshold, zone, price) =>
      "RSI " + FormatFixed(rsi, 1) + " dropped below " + FormatFixed(threshold, 0)
        + " (" + zone + ") at price $" + FormatFixed(price, 2)
    case RsiAbove(rsi, threshold, zone, price) =>
      "RSI " + FormatFixed(rsi, 1) + " rose above " + FormatFixed(threshold, 0)
        + " (" + zone + ") at price $" + FormatFixed(price, 2)
  }

  function OversoldZone(rsi: real): string {
    if rsi < 30.0 then "oversold" else "approaching oversold"
  }

  function OverboughtZone(rsi: real): string {
    if rsi > 70.0 then "overbought" else "approaching overbought"
  }

  /** `evaluator.format_reason(current_price, cost_basis, threshold, indicator_value)` */
  function FormatReason(e: Evaluator, price: real, costBasis: Option<real>, threshold: real,
                        indicator: Option<real>): Reason
  {
    match e
    case PriceBelowCostPctEvaluator =>
      if !HasCostBasis(costBasis) then NoCostBasis
      else BelowCost(price, DropPct(price, costBasis.value), costBasis.value, threshold)
    case PriceAboveCostPctEvaluator =>
      if !HasCostBasis(costBasis) then NoCostBasis
      else AboveCost(price, GainPct(price, costBasis.value), costBasis.value, threshold)
    case PriceBelowValueEvaluator => BelowTarget(price, threshold)
    case PriceAboveValueEvaluator => AboveTarget(price, threshold)
    case RsiBelowValueEvaluator =>
      if indicator.None? then RsiUnavailable
      else RsiBelow(indicator.value, threshold, OversoldZone(indicator.value), price)
    case RsiAboveValueEvaluator =>
      if indicator.None? then RsiUnavailable
      else RsiAbove(indicator.value, threshold, OverboughtZone(indicator.value), price)
  }

  /** The cost-percentage formatters say "No cost basis available" exactly
      when the evaluator's guard rejects the input, so such a reason never
      accompanies a trigger. */
  lemma NoCostBasisIffGuard(e: Evaluator, price: real, costBasis: Option<real>,
                            threshold: real, indicator: Option<real>)
    requires IsCostPct(e)
    ensures (FormatReason(e, price, costBasis, threshold, indicator) == NoCostBasis)
        <==> !HasCostBasis(costBasis)
    ensures FormatReason(e, price, costBasis, threshold, indicator) == NoCostBasis ==>
              !Evaluate(e, price, costBasis, threshold, indicator)
  {
  }

  /** The RSI formatters say "RSI data unavailable" exactly when there is no
      indicator value, and otherwise label the zone: below 30 is oversold,
      above 70 overbought, the rest "approaching". */
  lemma RsiReasonZones(price: real, costBasis: Option<real>, threshold: real,
                       indicator: Option<real>)
    ensures (FormatReason(RsiBelowValueEvaluator, price, costBasis, threshold, indicator)
             == RsiUnavailable) <==> indicator.None?
    ensures (FormatReason(RsiAboveValueEvaluator, price, costBasis, threshold, indicator)
             == RsiUnavailable) <==> indicator.None?
    ensures indicator.Some? ==>
      var below := FormatReason(RsiBelowValueEvaluator, price, costBasis, threshold, indicator);
      var above := FormatReason(RsiAboveValueEvaluator, price, costBasis, threshold, indicator);
      below.RsiBelow? && below.rsi == indicator.value && below.threshold == threshold &&
      (below.zone == "oversold" <==> indicator.value < 30.0) &&
      (below.zone != "oversold" ==> below.zone == "approaching oversold") &&
      above.RsiAbove? && above.rsi == indicator.value && above.threshold == threshold &&
      (above.zone == "overbought" <==> indicator.value > 70.0) &&
      (above.zone != "overbought" ==> above.zone == "approaching overbought")
  {
  }

  /** A triggered drop or gain rule reports the percentage that crossed the
      threshold, with the price and the cost basis it was computed from. */
  lemma TriggeredCostReason(e: Evaluator, price: real, costBasis: Option<real>,
                            threshold: real, indicator: Option<real>)
    requires IsCostPct(e) && Evaluate(e, price, costBasis, threshold, indicator)
    ensures var r := FormatReason(e, price, costBasis, threshold, indicator);
      costBasis.Some? &&
      (e == PriceBelowCostPctEvaluator ==>
         r.BelowCost? && r.dropPct >= threshold && r.price == price &&
         r.costBasis == costBasis.value && r.threshold == threshold &&
         r.dropPct * r.costBasis == (r.costBasis - r.price) * 100.0) &&
      (e == PriceAboveCostPctEvaluator ==>
         r.AboveCost? && r.gainPct >= threshold && r.price == price &&
         r.costBasis == costBasis.value && r.threshold == threshold &&
         r.gainPct * r.costBasis == (r.price - r.costBasis) * 100.0)
  {
  }

  /** Cost basis 100 and threshold 20: the drop rule fires at 75 with
      "$75.00", "25.0%" and "$100.00" in its reason, and stays quiet at 90
      and at 110. */
  lemma Figure75()
    ensures FormatFixed(75.0, 2) == "75.00"
  {
    assert Pow10(2) == 100;
    assert ScaledRound(75.0, 2) == 7500;
    assert NatToString(75) == "75" && NatToString(0) == "0";
    assert ZeroPad("0", 2) == "00";
  }

  lemma Figure100()
    ensures FormatFixed(100.0, 2) == "100.00"
  {
    assert Pow10(2) == 100;
    assert ScaledRound(100.0, 2) == 10000;
    assert NatToString(100) == "100" && NatToString(0) == "0";
    assert ZeroPad("0", 2) == "00";
  }

  lemma Figure25()
    ensures FormatFixed(25.0, 1) == "25.0"
  {
    assert Pow10(1) == 10;
    assert ScaledRound(25.0, 1) == 250;
    assert NatToString(25) == "25" && NatToString(0) == "0";
    assert ZeroPad("0", 1) == "0";
  }

  lemma Figure20()
    ensures FormatFixed(20.0, 1) == "20.0"
  {
    assert Pow10(1) == 10;
    assert ScaledRound(20.0, 1) == 200;
    assert NatToString(20) == "20" && NatToString(0) == "0";
    assert ZeroPad("0", 1) == "0";
  }

  lemma DropScenario()
    ensures Evaluate(PriceBelowCostPctEvaluator, 75.0, Some(100.0), 20.0, None)
    ensures FormatReason(PriceBelowCostPctEvaluator, 75.0, Some(100.0), 20.0, None)
         == BelowCost(75.0, 25.0, 100.0, 20.0)
    ensures !Evaluate(PriceBelowCostPctEvaluator, 90.0, Some(100.0), 20.0, None)
    ensures !Evaluate(PriceBelowCostPctEvaluator, 110.0, Some(100.0), 20.0, None)
  {
    assert DropPct(75.0, 100.0) == 25.0;
  }

  /** The rendered reason of that scenario. */
  lemma DropScenarioText()
    ensures Render(BelowCost(75.0, 25.0, 100.0, 20.0))
         == "Price $" + "75.00" + " is " + "25.0" + "% below cost basis $" + "100.00"
            + " (threshold: " + "20.0" + "%)"
  {
    Figure75();
    Figure25();
    Figure100();
    Figure20();
  }
}
