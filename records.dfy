/** The rows the pipeline reads and writes (holdings, rules, alerts) and the
    evaluation result the engine hands to the alert service.  Identifiers
    are natural numbers; timestamps are whole seconds. */
module Records {
  import opened Common
  import opened Evaluators

  type Id = nat

  /** A position: `cost_basis` is per share. */
  datatype Holding = Holding(
    id: Id,
    userId: Id,
    symbol: string,
    shares: real,
    costBasis: real,
    purchaseDate: Option<int>)

  /** An alert rule.  `ruleType` is the stored tag string and `symbol` None
      applies the rule to every holding. */
  datatype Rule = Rule(
    id: Id,
    userId: Id,
    name: string,
    ruleType: string,
    threshold: real,
    symbol: Option<string>,
    enabled: bool,
    cooldownMinutes: int,
    lastTriggeredAt: Option<int>)

  /** A triggered alert. */
  datatype Alert = Alert(
    id: Id,
    userId: Id,
    ruleId: Id,
    holdingId: Option<Id>,
    symbol: string,
    message: string,
    aiSummary: Option<string>,
    triggeredAt: int,
    notified: bool)

  /** `EvaluationResult` */
  datatype EvaluationResult = EvaluationResult(
    ruleId: Id,
    ruleName: string,
    ruleType: RuleType,
    symbol: string,
    triggered: bool,
    reason: string,
    currentPrice: real,
    costBasis: Option<real>,
    threshold: real,
    holdingId: Option<Id>)
}
