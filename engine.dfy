/** The rule engine: joins a user's enabled rules with the user's holdings
    grouped by symbol, skips rules in cooldown and symbols without a price,
    and reports every rule/symbol pair whose condition fires.  The price map
    is what the market-data provider's batch lookup returned. */
module Engine {
  import opened Common
  import opened Evaluators
  import opened Records
  import opened HoldingStore
  import opened RuleStore

  // ---------------------------------------------------------------------
  // Cooldown
  // ---------------------------------------------------------------------

  /** `_is_in_cooldown` at time `now` (seconds). */
  predicate InCooldown(cooldownEnabled: bool, rule: Rule, now: int) {
    cooldownEnabled && rule.lastTriggeredAt.Some? && rule.cooldownMinutes != 0
      && now < rule.lastTriggeredAt.value + rule.cooldownMinutes * 60
  }

  /** Cooldown is off when disabled, needs a previous trigger and a non-zero
      period, and once over stays over as time goes on. */
  lemma CooldownFacts(cooldownEnabled: bool, rule: Rule, now: int, later: int)
    requires now <= later
    ensures !InCooldown(false, rule, now)
    ensures rule.lastTriggeredAt.None? || rule.cooldownMinutes == 0 ==>
              !InCooldown(cooldownEnabled, rule, now)
    ensures InCooldown(cooldownEnabled, rule, later) ==> InCooldown(cooldownEnabled, rule, now)
    ensures cooldownEnabled && rule.lastTriggeredAt.Some? && rule.cooldownMinutes != 0 ==>
              (InCooldown(cooldownEnabled, rule, now)
               <==> now - rule.lastTriggeredAt.value < rule.cooldownMinutes * 60)
  {
  }

  // ---------------------------------------------------------------------
  // Grouping
  // ---------------------------------------------------------------------

  /** `holdings_by_symbol.get(symbol, [])`: that symbol's holdings in load order. */
  function HoldingsOf(hs: seq<Holding>, symbol: string): seq<Holding> {
    if hs == [] then []
    else
      var last := if hs[|hs| - 1].symbol == symbol then [hs[|hs| - 1]] else [];
      HoldingsOf(hs[..|hs| - 1], symbol) + last
  }

  /** A symbol's group holds exactly the holdings of that symbol. */
  lemma {:induction false} HoldingsOfMembers(hs: seq<Holding>, symbol: string)
    ensures forall h :: h in HoldingsOf(hs, symbol) <==> h in hs && h.symbol == symbol
  {
    if hs != [] {
      HoldingsOfMembers(hs[..|hs| - 1], symbol);
      assert hs == hs[..|hs| - 1] + [hs[|hs| - 1]];
    }
  }

  /** `list(holdings_by_symbol.keys())`: each held symbol once, in order of
      first appearance. */
  function SymbolOrder(hs: seq<Holding>): (r: seq<string>)
    ensures forall s :: s in r <==> HoldingsOf(hs, s) != []
    ensures Distinct(r)
  {
    if hs == [] then []
    else
      var p := SymbolOrder(hs[..|hs| - 1]);
      var s := hs[|hs| - 1].symbol;
      if s in p then p else p + [s]
  }

  /** `[rule.symbol] if rule.symbol else list(holdings_by_symbol.keys())` */
  function Targets(rule: Rule, order: seq<string>): seq<string> {
    if rule.symbol.Some? && rule.symbol.value != "" then [rule.symbol.value] else order
  }

  // ---------------------------------------------------------------------
  // Evaluation
  // ---------------------------------------------------------------------

  /** The condition check for one symbol, against its first holding. */
  function Assess(rule: Rule, t: RuleType, symbol: string, h: Holding, price: real)
    : Option<EvaluationResult>
  {
    var e := GetEvaluator(t).value;
    if Evaluate(e, price, Some(h.costBasis), rule.threshold, None) then
      Some(EvaluationResult(
        rule.id, rule.name, t, symbol, true,
        Render(FormatReason(e, price, Some(h.costBasis), rule.threshold, None)),
        price, Some(h.costBasis), rule.threshold, Some(h.id)))
    else None
  }

  /** One pass of the symbol loop: the result for `symbol`, if any. */
  function Match(rule: Rule, t: RuleType, symbol: string, hs: seq<Holding>,
                 prices: map<string, real>): Option<EvaluationResult>
  {
    var group := HoldingsOf(hs, symbol);
    if group == [] || symbol !in prices then None
    else Assess(rule, t, symbol, group[0], prices[symbol])
  }

  /** The symbol loop: the results over `targets`, in target order. */
  function Matches(rule: Rule, t: RuleType, targets: seq<string>, hs: seq<Holding>,
                   prices: map<string, real>): seq<EvaluationResult>
  {
    Collect(s => Match(rule, t, s, hs, prices), targets)
  }

  /** `ValueError` text of `RuleType(tag)` on an unknown tag. */
  function UnknownTag(tag: string): string {
    "'" + tag + "' is not a valid RuleType"
  }

  /** `evaluate_rule(db, rule, holdings, ignore_cooldown)` */
  function RuleOutcome(rule: Rule, hs: seq<Holding>, ignoreCooldown: bool,
                       cooldownEnabled: bool, now: int, prices: map<string, real>)
    : Result<seq<EvaluationResult>>
  {
    if !ignoreCooldown && InCooldown(cooldownEnabled, rule, now) then Ok([])
    else
      match ParseRuleType(rule.ruleType)
      case None => Err(UnknownTag(rule.ruleType))
      case Some(t) => Ok(Matches(rule, t, Targets(rule, SymbolOrder(hs)), hs, prices))
  }

  /** The rule loop of `evaluate_all`: each rule as `evaluate_rule` without
      ignoring cooldown, concatenated in rule order; the first unknown tag
      aborts the loop. */
  function RulesOutcome(rules: seq<Rule>, hs: seq<Holding>, cooldownEnabled: bool, now: int,
                        prices: map<string, real>): Result<seq<EvaluationResult>>
  {
    if rules == [] then Ok([])
    else
      match RulesOutcome(rules[..|rules| - 1], hs, cooldownEnabled, now, prices)
      case Err(e) => Err(e)
      case Ok(acc) =>
        match RuleOutcome(rules[|rules| - 1], hs, false, cooldownEnabled, now, prices)
        case Err(e) => Err(e)
        case Ok(rs) => Ok(acc + rs)
  }

  /** `evaluate_all(db, user_id)` */
  function AllOutcome(holdingTable: seq<Holding>, ruleTable: seq<Rule>, userId: Id,
                      cooldownEnabled: bool, now: int, prices: map<string, real>)
    : Result<seq<EvaluationResult>>
  {
    var hs := UserHoldings(holdingTable, userId);
    if hs == [] then Ok([])
    else RulesOutcome(ActiveRules(ruleTable, userId), hs, cooldownEnabled, now, prices)
  }

  // ---------------------------------------------------------------------
  // The loops
  // ---------------------------------------------------------------------

  /** `for h in holdings: holdings_by_symbol.setdefault(h.symbol, []).append(h)` */
  method GroupBySymbol(hs: seq<Holding>) returns (groups: map<string, seq<Holding>>, order: seq<string>)
    ensures order == SymbolOrder(hs)
    ensures forall s :: s in groups <==> s in order
    ensures forall s :: HoldingsOf(hs, s) == (if s in groups then groups[s] else [])
  {
    groups := map[];
    order := [];
    for i := 0 to |hs|
      invariant order == SymbolOrder(hs[..i])
      invariant forall s :: s in groups <==> s in order
      invariant forall s :: s in groups ==> groups[s] == HoldingsOf(hs[..i], s)
    {
      var h := hs[i];
      assert hs[..i + 1][..i] == hs[..i];
      if h.symbol in groups {
        groups := groups[h.symbol := groups[h.symbol] + [h]];
      } else {
        groups := groups[h.symbol := [h]];
        order := order + [h.symbol];
      }
    }
    assert hs[..|hs|] == hs;
  }

  lemma MatchesSnoc(rule: Rule, t: RuleType, targets: seq<string>, k: nat, hs: seq<Holding>,
                    prices: map<string, real>)
    requires k < |targets|
    ensures Matches(rule, t, targets[..k + 1], hs, prices)
         == Matches(rule, t, targets[..k], hs, prices)
            + OptionToSeq(Match(rule, t, targets[k], hs, prices))
  {
    CollectSnoc(s => Match(rule, t, s, hs, prices), targets, k);
  }

  /** The symbol loop of both `evaluate_all` and `evaluate_rule`. */
  method MatchTargets(rule: Rule, t: RuleType, targets: seq<string>,
                      groups: map<string, seq<Holding>>, prices: map<string, real>,
                      ghost hs: seq<Holding>)
    returns (results: seq<EvaluationResult>)
    requires forall s :: HoldingsOf(hs, s) == (if s in groups then groups[s] else [])
    ensures results == Matches(rule, t, targets, hs, prices)
  {
    results := [];
    for k := 0 to |targets|
      invariant results == Matches(rule, t, targets[..k], hs, prices)
    {
      var symbol := targets[k];
      MatchesSnoc(rule, t, targets, k, hs, prices);
      var group := if symbol in groups then groups[symbol] else [];
      assert group == HoldingsOf(hs, symbol);
      if group == [] || symbol !in prices {
        continue;
      }
      // evaluate against the first holding, and format the reason if it fires
      var outcome := Assess(rule, t, symbol, group[0], prices[symbol]);
      if outcome.Some? {
        results := results + [outcome.value];
      }
    }
    assert targets[..|targets|] == targets;
  }

  /** `RuleEngine.evaluate_rule` */
  method EvaluateRule(rule: Rule, holdings: seq<Holding>, ignoreCooldown: bool,
                      cooldownEnabled: bool, now: int, prices: map<string, real>)
    returns (r: Result<seq<EvaluationResult>>)
    ensures r == RuleOutcome(rule, holdings, ignoreCooldown, cooldownEnabled, now, prices)
  {
    if !ignoreCooldown && InCooldown(cooldownEnabled, rule, now) {
      return Ok([]);
    }
    var groups, order := GroupBySymbol(holdings);
    var targets := if rule.symbol.Some? && rule.symbol.value != "" then [rule.symbol.value] else order;
    var t := ParseRuleType(rule.ruleType);
    if t.None? {
      return Err(UnknownTag(rule.ruleType));
    }
    var results := MatchTargets(rule, t.value, targets, groups, prices, holdings);
    return Ok(results);
  }

  lemma {:induction false} RulesOutcomeAborts(rules: seq<Rule>, j: nat, hs: seq<Holding>,
                                              cooldownEnabled: bool, now: int,
                                              prices: map<string, real>, e: string)
    requires j <= |rules|
    requires RulesOutcome(rules[..j], hs, cooldownEnabled, now, prices) == Err(e)
    ensures RulesOutcome(rules, hs, cooldownEnabled, now, prices) == Err(e)
    decreases |rules| - j
  {
    if j < |rules| {
      assert rules[..j + 1][..j] == rules[..j];
      RulesOutcomeAborts(rules, j + 1, hs, cooldownEnabled, now, prices, e);
    } else {
      assert rules[..j] == rules;
    }
  }

  lemma RulesOutcomeSnoc(rules: seq<Rule>, j: nat, hs: seq<Holding>, cooldownEnabled: bool,
                         now: int, prices: map<string, real>, acc: seq<EvaluationResult>)
    requires j < |rules|
    requires RulesOutcome(rules[..j], hs, cooldownEnabled, now, prices) == Ok(acc)
    ensures RulesOutcome(rules[..j + 1], hs, cooldownEnabled, now, prices) ==
      match RuleOutcome(rules[j], hs, false, cooldownEnabled, now, prices)
      case Err(e) => Err(e)
      case Ok(rs) => Ok(acc + rs)
  {
    assert rules[..j + 1][..j] == rules[..j];
  }

  /** `RuleEngine.evaluate_all` over the holding and rule tables. */
  method EvaluateAll(holdingTable: seq<Holding>, ruleTable: seq<Rule>, userId: Id,
                     cooldownEnabled: bool, now: int, prices: map<string, real>)
    returns (r: Result<seq<EvaluationResult>>)
    ensures r == AllOutcome(holdingTable, ruleTable, userId, cooldownEnabled, now, prices)
  {
    var holdings := UserHoldings(holdingTable, userId);
    var rules := ActiveRules(ruleTable, userId);
    if holdings == [] {
      return Ok([]);
    }
    var groups, order := GroupBySymbol(holdings);
    var results := [];
    for j := 0 to |rules|
      invariant RulesOutcome(rules[..j], holdings, cooldownEnabled, now, prices) == Ok(results)
    {
      var rule := rules[j];
      RulesOutcomeSnoc(rules, j, holdings, cooldownEnabled, now, prices, results);
      if InCooldown(cooldownEnabled, rule, now) {
        assert results + [] == results;
        continue;
      }
      var targets := if rule.symbol.Some? && rule.symbol.value != "" then [rule.symbol.value] else order;
      var t := ParseRuleType(rule.ruleType);
      if t.None? {
        RulesOutcomeAborts(rules, j + 1, holdings, cooldownEnabled, now, prices, UnknownTag(rule.ruleType));
        return Err(UnknownTag(rule.ruleType));
      }
      var matched := MatchTargets(rule, t.value, targets, groups, prices, holdings);
      results := results + matched;
    }
    assert rules[..|rules|] == rules;
    return Ok(results);
  }

  // ---------------------------------------------------------------------
  // Properties of the engine
  // ---------------------------------------------------------------------

  /** What a result carries over from its rule, the first holding loaded for
      its symbol and the price map; and that the rule's condition held. */
  ghost predicate FromRule(x: EvaluationResult, rule: Rule, t: RuleType, hs: seq<Holding>,
                           prices: map<string, real>)
  {
    var group := HoldingsOf(hs, x.symbol);
    x.triggered && x.ruleId == rule.id && x.ruleName == rule.name && x.ruleType == t
    && x.threshold == rule.threshold && group != [] && x.symbol in prices
    && x.currentPrice == prices[x.symbol]
    && x.costBasis == Some(group[0].costBasis) && x.holdingId == Some(group[0].id)
    && Evaluate(GetEvaluator(t).value, x.currentPrice, x.costBasis, rule.threshold, None)
  }

  /** A symbol yields a result exactly when it is held, priced and the
      condition fires on its first holding; the result is built from those. */
  lemma MatchFires(rule: Rule, t: RuleType, symbol: string, hs: seq<Holding>,
                   prices: map<string, real>)
    ensures Match(rule, t, symbol, hs, prices).Some? <==>
              (HoldingsOf(hs, symbol) != [] && symbol in prices
               && Evaluate(GetEvaluator(t).value, prices[symbol],
                           Some(HoldingsOf(hs, symbol)[0].costBasis), rule.threshold, None))
    ensures Match(rule, t, symbol, hs, prices).Some? ==>
              var x := Match(rule, t, symbol, hs, prices).value;
              x.symbol == symbol && FromRule(x, rule, t, hs, prices)
  {
  }

  /** The symbol loop keeps exactly the results of its targets. */
  lemma MatchesMembers(rule: Rule, t: RuleType, targets: seq<string>,
                       hs: seq<Holding>, prices: map<string, real>)
    ensures forall x :: x in Matches(rule, t, targets, hs, prices) <==>
              exists k :: 0 <= k < |targets| && Match(rule, t, targets[k], hs, prices) == Some(x)
  {
    var f := s => Match(rule, t, s, hs, prices);
    forall x ensures x in Matches(rule, t, targets, hs, prices) <==>
               exists k :: 0 <= k < |targets| && Match(rule, t, targets[k], hs, prices) == Some(x)
    {
      CollectMembers(f, targets, x);
      assert forall k :: 0 <= k < |targets| ==> f(targets[k]) == Match(rule, t, targets[k], hs, prices);
    }
  }

  /** Every result of the symbol loop names one of its targets. */
  lemma {:induction false} MatchesSound(rule: Rule, t: RuleType, targets: seq<string>,
                                        hs: seq<Holding>, prices: map<string, real>)
    ensures forall x :: x in Matches(rule, t, targets, hs, prices) ==>
              x.symbol in targets && FromRule(x, rule, t, hs, prices)
  {
    MatchesMembers(rule, t, targets, hs, prices);
    forall x | x in Matches(rule, t, targets, hs, prices)
      ensures x.symbol in targets && FromRule(x, rule, t, hs, prices)
    {
      var k :| 0 <= k < |targets| && Match(rule, t, targets[k], hs, prices) == Some(x);
      MatchFires(rule, t, targets[k], hs, prices);
    }
  }

  /** The results' symbols are pairwise different. */
  ghost predicate DistinctSymbols(rs: seq<EvaluationResult>) {
    forall i, j :: 0 <= i < j < |rs| ==> rs[i].symbol != rs[j].symbol
  }

  /** Distinct targets give at most one result per symbol. */
  lemma {:induction false} MatchesDistinct(rule: Rule, t: RuleType, targets: seq<string>,
                                           hs: seq<Holding>, prices: map<string, real>)
    requires Distinct(targets)
    ensures DistinctSymbols(Matches(rule, t, targets, hs, prices))
  {
    if targets != [] {
      var n := |targets| - 1;
      var init := targets[..n];
      assert Distinct(init) by {
        forall i, j | 0 <= i < j < |init| ensures init[i] != init[j] {
          assert init[i] == targets[i] && init[j] == targets[j];
        }
      }
      MatchesDistinct(rule, t, init, hs, prices);
      MatchesSound(rule, t, init, hs, prices);
      var a := Matches(rule, t, init, hs, prices);
      var b := OptionToSeq(Match(rule, t, targets[n], hs, prices));
      var r := a + b;
      assert r == Matches(rule, t, targets, hs, prices);
      MatchFires(rule, t, targets[n], hs, prices);
      forall i, j | 0 <= i < j < |r| ensures r[i].symbol != r[j].symbol {
        if j >= |a| {
          assert r[j] == b[0] && r[j].symbol == targets[n];
          assert r[i] == a[i] && a[i] in a;
          assert targets[n] !in init by {
            forall m | 0 <= m < |init| ensures init[m] != targets[n] {
              assert init[m] == targets[m];
            }
          }
        }
      }
    }
  }

  /** RSI rules never fire in the engine: it passes no indicator value. */
  lemma {:induction false} RsiRulesSilent(rule: Rule, t: RuleType, targets: seq<string>,
                                          hs: seq<Holding>, prices: map<string, real>)
    requires t == RsiBelowValue || t == RsiAboveValue
    ensures Matches(rule, t, targets, hs, prices) == []
  {
    if targets != [] {
      RsiRulesSilent(rule, t, targets[..|targets| - 1], hs, prices);
      var e := GetEvaluator(t).value;
      assert IsRsi(e);
      var s := targets[|targets| - 1];
      if HoldingsOf(hs, s) != [] && s in prices {
        RsiRules(e, prices[s], prices[s], Some(HoldingsOf(hs, s)[0].costBasis),
                 Some(HoldingsOf(hs, s)[0].costBasis), rule.threshold, None);
      }
    }
  }

  /** `evaluate_rule`: a rule in cooldown (and not told to ignore it) yields
      nothing; an unknown tag is an error; otherwise every result is for a
      target symbol that is held and priced, carries the rule's fields and
      the first holding's, and every such symbol whose condition fires has
      its result.  A scoped rule reports only its own symbol; an unscoped
      one only held symbols; and no symbol is reported twice. */
  lemma {:induction false} RuleOutcomeSpec(rule: Rule, hs: seq<Holding>, ignoreCooldown: bool,
                                           cooldownEnabled: bool, now: int,
                                           prices: map<string, real>)
    ensures !ignoreCooldown && InCooldown(cooldownEnabled, rule, now) ==>
              RuleOutcome(rule, hs, ignoreCooldown, cooldownEnabled, now, prices) == Ok([])
    ensures RuleOutcome(rule, hs, ignoreCooldown, cooldownEnabled, now, prices).Err? <==>
              ((ignoreCooldown || !InCooldown(cooldownEnabled, rule, now))
               && ParseRuleType(rule.ruleType).None?)
    ensures RuleOutcome(rule, hs, ignoreCooldown, cooldownEnabled, now, prices).Ok? ==>
              var rs := RuleOutcome(rule, hs, ignoreCooldown, cooldownEnabled, now, prices).value;
              DistinctSymbols(rs)
              && (forall x :: x in rs ==>
                    ParseRuleType(rule.ruleType).Some?
                    && FromRule(x, rule, ParseRuleType(rule.ruleType).value, hs, prices)
                    && x.symbol in Targets(rule, SymbolOrder(hs))
                    && x.symbol in SymbolOrder(hs)
                    && (rule.symbol.Some? && rule.symbol.value != "" ==> x.symbol == rule.symbol.value))
    ensures (ignoreCooldown || !InCooldown(cooldownEnabled, rule, now))
            && ParseRuleType(rule.ruleType).Some? ==>
              var t := ParseRuleType(rule.ruleType).value;
              forall s :: s in Targets(rule, SymbolOrder(hs)) && Match(rule, t, s, hs, prices).Some? ==>
                Match(rule, t, s, hs, prices).value
                  in RuleOutcome(rule, hs, ignoreCooldown, cooldownEnabled, now, prices).value
  {
    if (ignoreCooldown || !InCooldown(cooldownEnabled, rule, now))
       && ParseRuleType(rule.ruleType).Some? {
      var t := ParseRuleType(rule.ruleType).value;
      var targets := Targets(rule, SymbolOrder(hs));
      var rs := Matches(rule, t, targets, hs, prices);
      MatchesSound(rule, t, targets, hs, prices);
      MatchesMembers(rule, t, targets, hs, prices);
      MatchesDistinct(rule, t, targets, hs, prices);
      forall x | x in rs ensures x.symbol in SymbolOrder(hs) {
        assert HoldingsOf(hs, x.symbol) != [];
      }
      forall s | s in targets && Match(rule, t, s, hs, prices).Some?
        ensures Match(rule, t, s, hs, prices).value in rs
      {
        var k :| 0 <= k < |targets| && targets[k] == s;
      }
    }
  }

  /** Rule ids are pairwise different, as the rules table guarantees. */
  ghost predicate DistinctIds(rules: seq<Rule>) {
    forall i, j :: 0 <= i < j < |rules| ==> rules[i].id != rules[j].id
  }

  /** At most one result per (rule, symbol) pair. */
  ghost predicate OnePerRuleSymbol(rs: seq<EvaluationResult>) {
    forall a, b :: 0 <= a < b < |rs| ==> rs[a].ruleId != rs[b].ruleId || rs[a].symbol != rs[b].symbol
  }

  /** `x` is a result rule `rule` can produce: the rule was not in cooldown,
      its tag is known, and `x` carries its fields. */
  ghost predicate Produced(x: EvaluationResult, rule: Rule, hs: seq<Holding>, cooldownEnabled: bool,
                           now: int, prices: map<string, real>)
  {
    !InCooldown(cooldownEnabled, rule, now) && ParseRuleType(rule.ruleType).Some?
    && FromRule(x, rule, ParseRuleType(rule.ruleType).value, hs, prices)
  }

  /** The rule loop succeeds exactly when every rule evaluates without error. */
  lemma {:induction false} RulesOutcomeOk(rules: seq<Rule>, hs: seq<Holding>, cooldownEnabled: bool,
                                          now: int, prices: map<string, real>)
    ensures RulesOutcome(rules, hs, cooldownEnabled, now, prices).Ok? <==>
              forall j :: 0 <= j < |rules| ==>
                RuleOutcome(rules[j], hs, false, cooldownEnabled, now, prices).Ok?
  {
    if rules != [] {
      var n := |rules| - 1;
      var init := rules[..n];
      RulesOutcomeOk(init, hs, cooldownEnabled, now, prices);
      var prev := RulesOutcome(init, hs, cooldownEnabled, now, prices);
      var last := RuleOutcome(rules[n], hs, false, cooldownEnabled, now, prices);
      assert RulesOutcome(rules, hs, cooldownEnabled, now, prices).Ok? <==> prev.Ok? && last.Ok?;
      if prev.Ok? && last.Ok? {
        forall j | 0 <= j < |rules| ensures RuleOutcome(rules[j], hs, false, cooldownEnabled, now, prices).Ok? {
          if j < n {
            assert init[j] == rules[j];
          } else {
            assert j == n;
          }
        }
      } else if prev.Ok? {
        assert !RuleOutcome(rules[n], hs, false, cooldownEnabled, now, prices).Ok?;
      } else {
        var j :| 0 <= j < n && !RuleOutcome(init[j], hs, false, cooldownEnabled, now, prices).Ok?;
        assert init[j] == rules[j];
      }
    }
  }

  /** Every result of the rule loop was produced by one of its rules, and
      (rule ids being distinct) no (rule, symbol) pair is reported twice. */
  lemma {:induction false} RulesOutcomeSpec(rules: seq<Rule>, hs: seq<Holding>, cooldownEnabled: bool,
                                            now: int, prices: map<string, real>)
    requires RulesOutcome(rules, hs, cooldownEnabled, now, prices).Ok?
    ensures forall x :: x in RulesOutcome(rules, hs, cooldownEnabled, now, prices).value ==>
              exists r :: r in rules && Produced(x, r, hs, cooldownEnabled, now, prices)
    ensures DistinctIds(rules) ==> OnePerRuleSymbol(RulesOutcome(rules, hs, cooldownEnabled, now, prices).value)
  {
    if rules != [] {
      var n := |rules| - 1;
      var init := rules[..n];
      assert RulesOutcome(init, hs, cooldownEnabled, now, prices).Ok?;
      RulesOutcomeSpec(init, hs, cooldownEnabled, now, prices);
      var acc := RulesOutcome(init, hs, cooldownEnabled, now, prices).value;
      var last := RuleOutcome(rules[n], hs, false, cooldownEnabled, now, prices);
      assert RulesOutcome(rules, hs, cooldownEnabled, now, prices) == Ok(acc + last.value);
      RuleProduces(rules[n], hs, cooldownEnabled, now, prices);
      RulesStep(rules, acc, last.value, hs, cooldownEnabled, now, prices);
    }
  }

  /** What one rule contributes to the rule loop. */
  lemma RuleProduces(rule: Rule, hs: seq<Holding>, cooldownEnabled: bool, now: int,
                     prices: map<string, real>)
    requires RuleOutcome(rule, hs, false, cooldownEnabled, now, prices).Ok?
    ensures forall x :: x in RuleOutcome(rule, hs, false, cooldownEnabled, now, prices).value ==>
              Produced(x, rule, hs, cooldownEnabled, now, prices)
    ensures DistinctSymbols(RuleOutcome(rule, hs, false, cooldownEnabled, now, prices).value)
  {
    RuleOutcomeSpec(rule, hs, false, cooldownEnabled, now, prices);
  }

  /** The inductive step of `RulesOutcomeSpec`: appending the results of one
      more rule. */
  lemma {:induction false} RulesStep(rules: seq<Rule>, acc: seq<EvaluationResult>,
                                     more: seq<EvaluationResult>, hs: seq<Holding>,
                                     cooldownEnabled: bool, now: int, prices: map<string, real>)
    requires rules != []
    requires forall x :: x in acc ==>
               exists r :: r in rules[..|rules| - 1] && Produced(x, r, hs, cooldownEnabled, now, prices)
    requires DistinctIds(rules[..|rules| - 1]) ==> OnePerRuleSymbol(acc)
    requires forall x :: x in more ==> Produced(x, rules[|rules| - 1], hs, cooldownEnabled, now, prices)
    requires DistinctSymbols(more)
    ensures forall x :: x in acc + more ==>
              exists r :: r in rules && Produced(x, r, hs, cooldownEnabled, now, prices)
    ensures DistinctIds(rules) ==> OnePerRuleSymbol(acc + more)
  {
    var init := rules[..|rules| - 1];
    var rule := rules[|rules| - 1];
    assert init + [rule] == rules;
    var rs := acc + more;
    assert rule in rules;
    forall x | x in acc ensures exists r :: r in rules && Produced(x, r, hs, cooldownEnabled, now, prices) {
      var r :| r in init && Produced(x, r, hs, cooldownEnabled, now, prices);
      assert r in rules;
    }
    if DistinctIds(rules) {
      IdsOfPrefix(rules);
      assert rules[..|init|] == init;
      forall a, b | 0 <= a < b < |rs| ensures rs[a].ruleId != rs[b].ruleId || rs[a].symbol != rs[b].symbol {
        if b < |acc| {
          assert rs[a] == acc[a] && rs[b] == acc[b];
        } else if a >= |acc| {
          assert rs[a] == more[a - |acc|] && rs[b] == more[b - |acc|];
        } else {
          assert rs[a] == acc[a] && acc[a] in acc;
          var r :| r in init && Produced(rs[a], r, hs, cooldownEnabled, now, prices);
          assert rs[b] == more[b - |acc|] && rs[b] in more;
        }
      }
    }
  }

  /** Dropping the last rule keeps ids distinct, and its id is not among the
      others. */
  lemma {:induction false} IdsOfPrefix(rules: seq<Rule>)
    requires rules != [] && DistinctIds(rules)
    ensures DistinctIds(rules[..|rules| - 1])
    ensures forall r :: r in rules[..|rules| - 1] ==> r.id != rules[|rules| - 1].id
  {
    var n := |rules| - 1;
    forall i, j | 0 <= i < j < n ensures rules[..n][i].id != rules[..n][j].id {
      assert rules[..n][i] == rules[i] && rules[..n][j] == rules[j];
    }
    forall r | r in rules[..n] ensures r.id != rules[n].id {
      var i :| 0 <= i < n && rules[..n][i] == r;
      assert rules[i] == r;
    }
  }

  /** Only enabled rules with distinct ids survive the query when the table's
      ids are distinct. */
  lemma DistinctIdsTail(table: seq<Rule>)
    requires table != [] && DistinctIds(table)
    ensures DistinctIds(table[1..])
  {
    var tail := table[1..];
    forall i, j | 0 <= i < j < |tail| ensures tail[i].id != tail[j].id {
      assert tail[i] == table[i + 1] && tail[j] == table[j + 1];
    }
  }

  lemma {:induction false} ActiveRulesDistinct(table: seq<Rule>, userId: Id)
    requires DistinctIds(table)
    ensures DistinctIds(ActiveRules(table, userId))
  {
    if table != [] {
      var tail := table[1..];
      DistinctIdsTail(table);
      ActiveRulesDistinct(tail, userId);
      ActiveRulesMembers(tail, userId);
      var rest := ActiveRules(tail, userId);
      if table[0].userId == userId && table[0].enabled {
        var r := [table[0]] + rest;
        assert r == ActiveRules(table, userId);
        forall i, j | 0 <= i < j < |r| ensures r[i].id != r[j].id {
          if i == 0 {
            assert r[j] == rest[j - 1] && rest[j - 1] in tail;
            var m :| 0 <= m < |tail| && tail[m] == r[j];
            assert table[m + 1] == r[j];
          } else {
            assert r[i] == rest[i - 1] && r[j] == rest[j - 1];
          }
        }
      } else {
        assert ActiveRules(table, userId) == rest;
      }
    }
  }

  /** `evaluate_all`: a user without holdings gets no results whatever the
      rules; the call fails exactly when the user has holdings and some
      enabled rule outside its cooldown has an unknown tag; every result was
      produced by one of the user's enabled rules and names the user's first
      loaded holding of its symbol; and with distinct rule ids no (rule,
      symbol) pair is reported twice. */
  lemma AllOutcomeSpec(holdingTable: seq<Holding>, ruleTable: seq<Rule>, userId: Id,
                       cooldownEnabled: bool, now: int, prices: map<string, real>)
    ensures (forall h :: h in holdingTable ==> h.userId != userId) ==>
              AllOutcome(holdingTable, ruleTable, userId, cooldownEnabled, now, prices) == Ok([])
    ensures AllOutcome(holdingTable, ruleTable, userId, cooldownEnabled, now, prices).Err? <==>
              (exists h :: h in holdingTable && h.userId == userId)
              && (exists r :: r in ruleTable && r.userId == userId && r.enabled
                    && !InCooldown(cooldownEnabled, r, now) && ParseRuleType(r.ruleType).None?)
    ensures AllOutcome(holdingTable, ruleTable, userId, cooldownEnabled, now, prices).Ok? ==>
              forall x :: x in AllOutcome(holdingTable, ruleTable, userId, cooldownEnabled, now, prices).value ==>
                (exists r :: r in ruleTable && r.userId == userId && r.enabled
                   && Produced(x, r, UserHoldings(holdingTable, userId), cooldownEnabled, now, prices))
                && (exists h :: h in holdingTable && h.userId == userId && h.symbol == x.symbol
                      && x.holdingId == Some(h.id) && x.costBasis == Some(h.costBasis))
    ensures DistinctIds(ruleTable)
            && AllOutcome(holdingTable, ruleTable, userId, cooldownEnabled, now, prices).Ok? ==>
              OnePerRuleSymbol(AllOutcome(holdingTable, ruleTable, userId, cooldownEnabled, now, prices).value)
  {
    var hs := UserHoldings(holdingTable, userId);
    var rules := ActiveRules(ruleTable, userId);
    UserHoldingsMembers(holdingTable, userId);
    ActiveRulesMembers(ruleTable, userId);
    if hs != [] {
      assert hs[0] in hs;
      RulesOutcomeOk(rules, hs, cooldownEnabled, now, prices);
      AllOutcomeFails(rules, hs, cooldownEnabled, now, prices);
      if RulesOutcome(rules, hs, cooldownEnabled, now, prices).Ok? {
        RulesOutcomeSpec(rules, hs, cooldownEnabled, now, prices);
        forall x | x in RulesOutcome(rules, hs, cooldownEnabled, now, prices).value
          ensures exists h :: h in holdingTable && h.userId == userId && h.symbol == x.symbol
                    && x.holdingId == Some(h.id) && x.costBasis == Some(h.costBasis)
        {
          var r :| r in rules && Produced(x, r, hs, cooldownEnabled, now, prices);
          var g := HoldingsOf(hs, x.symbol);
          HoldingsOfMembers(hs, x.symbol);
          assert g[0] in g;
        }
        if DistinctIds(ruleTable) {
          ActiveRulesDistinct(ruleTable, userId);
        }
      }
    }
  }

  /** The rule loop fails exactly when one of its rules, outside its
      cooldown, has an unknown tag. */
  lemma AllOutcomeFails(rules: seq<Rule>, hs: seq<Holding>, cooldownEnabled: bool, now: int,
                        prices: map<string, real>)
    requires RulesOutcome(rules, hs, cooldownEnabled, now, prices).Ok? <==>
               forall j :: 0 <= j < |rules| ==>
                 RuleOutcome(rules[j], hs, false, cooldownEnabled, now, prices).Ok?
    ensures RulesOutcome(rules, hs, cooldownEnabled, now, prices).Err? <==>
              exists r :: r in rules && !InCooldown(cooldownEnabled, r, now) && ParseRuleType(r.ruleType).None?
  {
    if RulesOutcome(rules, hs, cooldownEnabled, now, prices).Err? {
      var j :| 0 <= j < |rules| && RuleOutcome(rules[j], hs, false, cooldownEnabled, now, prices).Err?;
      RuleOutcomeSpec(rules[j], hs, false, cooldownEnabled, now, prices);
    }
    if exists r :: r in rules && !InCooldown(cooldownEnabled, r, now) && ParseRuleType(r.ruleType).None? {
      var r :| r in rules && !InCooldown(cooldownEnabled, r, now) && ParseRuleType(r.ruleType).None?;
      var j :| 0 <= j < |rules| && rules[j] == r;
      RuleOutcomeSpec(rules[j], hs, false, cooldownEnabled, now, prices);
    }
  }
}
