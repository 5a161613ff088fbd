/** The alert service: turns the engine's triggered results into alerts,
    stamps the triggering rules, attaches an AI summary on a best-effort
    basis and notifies once per alert.  The AI context generator is a
    parameter (an oracle from the context it is given to its answer, `None`
    standing for a failure or an empty answer); the notifier is the
    sequence of alerts handed to it. */
module AlertService {
  import opened Common
  import opened Evaluators
  import opened Records
  import opened AlertStore
  import opened RuleStore

  /** `AlertContextData`: what the context generator is given. */
  datatype AlertContext = AlertContext(
    symbol: string,
    ruleName: string,
    ruleType: string,
    threshold: real,
    currentPrice: real,
    costBasis: Option<real>,
    percentChange: Option<real>,
    message: string)

  /** The name of the rule that test alerts hang off. */
  const TestRuleName: string := "__test_rule__"

  /** `f"{result.rule_name}: {result.reason}"` */
  function Message(r: EvaluationResult): (m: string)
    ensures StartsWith(m, r.ruleName + ": ")
    ensures m[|r.ruleName| + 2..] == r.reason
  {
    r.ruleName + ": " + r.reason
  }

  /** `percent_change`: only for a positive cost basis, and its sign is the
      sign of the move from the cost basis. */
  function PercentChange(r: EvaluationResult): (p: Option<real>)
    ensures p.Some? <==> r.costBasis.Some? && r.costBasis.value > 0.0
    ensures p.Some? ==> (p.value > 0.0 <==> r.currentPrice > r.costBasis.value)
    ensures p.Some? ==> (p.value == 0.0 <==> r.currentPrice == r.costBasis.value)
  {
    if r.costBasis.Some? && r.costBasis.value > 0.0 then
      SignOfGain(r.currentPrice, r.costBasis.value);
      Some(GainPct(r.currentPrice, r.costBasis.value))
    else None
  }

  lemma SignOfGain(price: real, cost: real)
    requires cost > 0.0
    ensures GainPct(price, cost) > 0.0 <==> price > cost
    ensures GainPct(price, cost) == 0.0 <==> price == cost
  {
    var q := (price - cost) / cost;
    assert q * cost == price - cost;
    if q > 0.0 {
      assert q * cost > 0.0;
    } else if q < 0.0 {
      assert q * cost < 0.0;
    }
  }

  /** `_generate_context`'s input for one result. */
  function ContextOf(r: EvaluationResult): AlertContext {
    AlertContext(r.symbol, r.ruleName, Tag(r.ruleType), r.threshold, r.currentPrice, r.costBasis,
                 PercentChange(r), r.reason)
  }

  /** The summary attached to a result's alert: the generator is asked only
      when AI context is on and a generator exists, and only a non-empty
      answer is attached. */
  function Summary(r: EvaluationResult, generateAi: bool, generator: Option<AlertContext -> Option<string>>)
    : (s: Option<string>)
    ensures s.Some? ==> generateAi && generator.Some? && generator.value(ContextOf(r)) == s && s.value != ""
    ensures s.None? <==> !generateAi || generator.None? || generator.value(ContextOf(r)).None?
                         || generator.value(ContextOf(r)) == Some("")
  {
    if generateAi && generator.Some? then
      match generator.value(ContextOf(r))
      case Some(text) => if text != "" then Some(text) else None
      case None => None
    else None
  }

  /** The alert `_create_alert_from_result` stores for a result, once its
      summary is attached. */
  function NewAlert(r: EvaluationResult, userId: Id, id: Id, now: int, summary: Option<string>): Alert {
    Alert(id, userId, r.ruleId, r.holdingId, Upper(r.symbol), Message(r), summary, now, false)
  }

  function TriggeredOnly(r: EvaluationResult): Option<EvaluationResult> {
    if r.triggered then Some(r) else None
  }

  /** The results that turn into alerts, in order. */
  function Triggered(results: seq<EvaluationResult>): seq<EvaluationResult> {
    Collect(TriggeredOnly, results)
  }

  /** Exactly the triggered results make alerts. */
  lemma TriggeredMembers(results: seq<EvaluationResult>)
    ensures forall x :: x in Triggered(results) <==> x in results && x.triggered
    ensures |Triggered(results)| <= |results|
  {
    forall x ensures x in Triggered(results) <==> x in results && x.triggered {
      CollectMembers(TriggeredOnly, results, x);
    }
  }

  /** The rules a sequence of results came from. */
  function RuleIds(rs: seq<EvaluationResult>): set<Id> {
    if rs == [] then {} else RuleIds(rs[..|rs| - 1]) + {rs[|rs| - 1].ruleId}
  }

  /** A rule id is collected iff some result carries it. */
  lemma {:induction false} RuleIdsMembers(rs: seq<EvaluationResult>, id: Id)
    ensures id in RuleIds(rs) <==> exists k :: 0 <= k < |rs| && rs[k].ruleId == id
  {
    if rs != [] {
      var init := rs[..|rs| - 1];
      RuleIdsMembers(init, id);
      if exists k :: 0 <= k < |init| && init[k].ruleId == id {
        var k :| 0 <= k < |init| && init[k].ruleId == id;
        assert rs[k] == init[k];
      }
      if exists k :: 0 <= k < |rs| && rs[k].ruleId == id {
        var k :| 0 <= k < |rs| && rs[k].ruleId == id;
        if k < |init| {
          assert init[k] == rs[k];
        }
      }
    }
  }

  /** The rules stamped by `process_evaluation_results` are exactly those of
      its triggered results. */
  lemma StampedRules(results: seq<EvaluationResult>, id: Id)
    ensures id in RuleIds(Triggered(results)) <==>
              exists k :: 0 <= k < |results| && results[k].triggered && results[k].ruleId == id
  {
    var ts := Triggered(results);
    RuleIdsMembers(ts, id);
    TriggeredMembers(results);
    if exists k :: 0 <= k < |ts| && ts[k].ruleId == id {
      var k :| 0 <= k < |ts| && ts[k].ruleId == id;
      assert ts[k] in results;
      var m :| 0 <= m < |results| && results[m] == ts[k];
    }
    if exists k :: 0 <= k < |results| && results[k].triggered && results[k].ruleId == id {
      var k :| 0 <= k < |results| && results[k].triggered && results[k].ruleId == id;
      assert results[k] in ts;
      var m :| 0 <= m < |ts| && ts[m] == results[k];
    }
  }

  lemma RuleIdsSnoc(rs: seq<EvaluationResult>, r: EvaluationResult)
    ensures RuleIds(rs + [r]) == RuleIds(rs) + {r.ruleId}
  {
    assert (rs + [r])[..|rs|] == rs;
  }

  /** One stamped rule: `rule.last_triggered_at = now`. */
  function Stamped(rule: Rule, now: int): Rule {
    rule.(lastTriggeredAt := Some(now))
  }

  /** The body of the loop of `process_evaluation_results` for one triggered
      result: create the alert, stamp its rule, attach the summary. */
  method ProcessOne(alertRepo: AlertRepository, ruleRepo: RuleRepository, r: EvaluationResult, userId: Id,
                    generateAi: bool, generator: Option<AlertContext -> Option<string>>, now: int)
    returns (a: Alert)
    requires alertRepo.Valid() && ruleRepo.Valid()
    modifies alertRepo, ruleRepo
    ensures alertRepo.Valid() && ruleRepo.Valid()
    ensures a == NewAlert(r, userId, old(alertRepo.nextId), now, Summary(r, generateAi, generator))
    ensures alertRepo.rows == old(alertRepo.rows) + [a] && alertRepo.nextId == old(alertRepo.nextId) + 1
    ensures ruleRepo.nextId == old(ruleRepo.nextId) && |ruleRepo.rows| == |old(ruleRepo.rows)|
    ensures forall j :: 0 <= j < |ruleRepo.rows| ==>
              ruleRepo.rows[j] == if old(ruleRepo.rows)[j].id == r.ruleId then Stamped(old(ruleRepo.rows)[j], now)
                                  else old(ruleRepo.rows)[j]
  {
    a := alertRepo.Create(userId, r.ruleId, r.symbol, Message(r), r.holdingId, None, now);
    ruleRepo.UpdateLastTriggered(r.ruleId, now);
    var summary := Summary(r, generateAi, generator);
    if summary.Some? {
      ghost var before := alertRepo.rows;
      var _ := alertRepo.UpdateAiSummary(a.id, summary.value);
      assert forall i :: 0 <= i < |before| - 1 ==> before[i].id < a.id;
      a := a.(aiSummary := summary);
      assert alertRepo.rows == before[..|before| - 1] + [a];
    }
  }

  /** `alerts` are the alerts made, in order, for the triggered results
      `ts`, with ids counting up from `next0`. */
  ghost predicate AlertsFor(alerts: seq<Alert>, ts: seq<EvaluationResult>, userId: Id, next0: nat, now: int,
                            generateAi: bool, generator: Option<AlertContext -> Option<string>>)
  {
    |alerts| == |ts|
    && forall k :: 0 <= k < |alerts| ==>
         alerts[k] == NewAlert(ts[k], userId, next0 + k, now, Summary(ts[k], generateAi, generator))
  }

  /** `rows` is `rules0` with exactly the rules in `ids` stamped. */
  ghost predicate StampedFrom(rows: seq<Rule>, rules0: seq<Rule>, ids: set<Id>, now: int) {
    |rows| == |rules0|
    && forall j :: 0 <= j < |rules0| ==>
         rows[j] == if rules0[j].id in ids then Stamped(rules0[j], now) else rules0[j]
  }

  lemma AlertsStep(alerts: seq<Alert>, ts: seq<EvaluationResult>, r: EvaluationResult, a: Alert, userId: Id,
                   next0: nat, now: int, generateAi: bool, generator: Option<AlertContext -> Option<string>>)
    requires AlertsFor(alerts, ts, userId, next0, now, generateAi, generator)
    requires a == NewAlert(r, userId, next0 + |alerts|, now, Summary(r, generateAi, generator))
    ensures AlertsFor(alerts + [a], ts + [r], userId, next0, now, generateAi, generator)
  {
  }

  lemma StampStep(rows: seq<Rule>, mid: seq<Rule>, rules0: seq<Rule>, ids: set<Id>, id: Id, now: int)
    requires StampedFrom(mid, rules0, ids, now)
    requires |rows| == |mid|
    requires forall j :: 0 <= j < |rows| ==> rows[j] == if mid[j].id == id then Stamped(mid[j], now) else mid[j]
    ensures StampedFrom(rows, rules0, ids + {id}, now)
  {
  }

  lemma AppendAssoc<T>(a: seq<T>, b: seq<T>, x: T, after: seq<T>, before: seq<T>)
    requires before == a + b && after == before + [x]
    ensures after == a + (b + [x])
  {
  }

  /** The state of the loop of `process_evaluation_results` after the
      results `ts` have made alerts: the alerts stored after `rows0` with
      ids from `next0` on, the sent list, and the rules of `ts` stamped. */
  ghost predicate Progress(alertRows: seq<Alert>, nextId: nat, ruleRows: seq<Rule>, alerts: seq<Alert>,
                           sent: seq<Alert>, ts: seq<EvaluationResult>, userId: Id, notify: bool,
                           generateAi: bool, generator: Option<AlertContext -> Option<string>>, now: int,
                           rows0: seq<Alert>, next0: nat, rules0: seq<Rule>)
  {
    AlertsFor(alerts, ts, userId, next0, now, generateAi, generator)
    && alertRows == rows0 + alerts && nextId == next0 + |alerts|
    && sent == (if notify then alerts else [])
    && StampedFrom(ruleRows, rules0, RuleIds(ts), now)
  }

  /** One result of the loop of `process_evaluation_results`: a result
      that did not trigger is skipped; otherwise its alert is stored and
      collected (and queued for sending when notifying), and its rule is
      stamped. */
  method ProcessResult(alertRepo: AlertRepository, ruleRepo: RuleRepository, r: EvaluationResult, userId: Id,
                       notify: bool, generateAi: bool, generator: Option<AlertContext -> Option<string>>, now: int,
                       alerts: seq<Alert>, sent: seq<Alert>, ghost ts: seq<EvaluationResult>,
                       ghost rows0: seq<Alert>, ghost next0: nat, ghost rules0: seq<Rule>)
    returns (alerts1: seq<Alert>, sent1: seq<Alert>)
    requires alertRepo.Valid() && ruleRepo.Valid()
    requires Progress(alertRepo.rows, alertRepo.nextId, ruleRepo.rows, alerts, sent, ts,
                      userId, notify, generateAi, generator, now, rows0, next0, rules0)
    modifies alertRepo, ruleRepo
    ensures alertRepo.Valid() && ruleRepo.Valid()
    ensures Progress(alertRepo.rows, alertRepo.nextId, ruleRepo.rows, alerts1, sent1, ts + OptionToSeq(TriggeredOnly(r)),
                     userId, notify, generateAi, generator, now, rows0, next0, rules0)
    ensures ruleRepo.nextId == old(ruleRepo.nextId)
  {
    if !r.triggered {
      assert ts + OptionToSeq(TriggeredOnly(r)) == ts;
      return alerts, sent;
    }
    assert ts + OptionToSeq(TriggeredOnly(r)) == ts + [r];
    ghost var mid, rowsMid := ruleRepo.rows, alertRepo.rows;
    RuleIdsSnoc(ts, r);
    var a := ProcessOne(alertRepo, ruleRepo, r, userId, generateAi, generator, now);
    AlertsStep(alerts, ts, r, a, userId, next0, now, generateAi, generator);
    StampStep(ruleRepo.rows, mid, rules0, RuleIds(ts), r.ruleId, now);
    AppendAssoc(rows0, alerts, a, alertRepo.rows, rowsMid);
    alerts1 := alerts + [a];
    sent1 := if notify then sent + [a] else sent;
  }

  method ProcessEvaluationResults(alertRepo: AlertRepository, ruleRepo: RuleRepository,
                                  results: seq<EvaluationResult>, userId: Id, notify: bool,
                                  generateAi: bool, generator: Option<AlertContext -> Option<string>>, now: int)
    returns (alerts: seq<Alert>, sent: seq<Alert>)
    requires alertRepo.Valid() && ruleRepo.Valid()
    modifies alertRepo, ruleRepo
    ensures alertRepo.Valid() && ruleRepo.Valid()
    ensures |alerts| == |Triggered(results)|
    ensures forall i :: 0 <= i < |alerts| ==>
              alerts[i] == NewAlert(Triggered(results)[i], userId, old(alertRepo.nextId) + i, now,
                                    Summary(Triggered(results)[i], generateAi, generator))
    ensures alertRepo.rows == old(alertRepo.rows) + alerts
    ensures alertRepo.nextId == old(alertRepo.nextId) + |alerts|
    ensures sent == if notify then alerts else []
    ensures ruleRepo.nextId == old(ruleRepo.nextId) && |ruleRepo.rows| == |old(ruleRepo.rows)|
    ensures forall j :: 0 <= j < |ruleRepo.rows| ==>
              ruleRepo.rows[j] == if old(ruleRepo.rows)[j].id in RuleIds(Triggered(results))
                                  then Stamped(old(ruleRepo.rows)[j], now)
                                  else old(ruleRepo.rows)[j]
  {
    ghost var rows0, next0 := alertRepo.rows, alertRepo.nextId;
    ghost var rules0 := ruleRepo.rows;
    alerts, sent := [], [];
    for i := 0 to |results|
      invariant alertRepo.Valid() && ruleRepo.Valid()
      invariant Progress(alertRepo.rows, alertRepo.nextId, ruleRepo.rows, alerts, sent, Triggered(results[..i]),
                         userId, notify, generateAi, generator, now, rows0, next0, rules0)
      invariant ruleRepo.nextId == old(ruleRepo.nextId)
    {
      CollectSnoc(TriggeredOnly, results, i);
      alerts, sent := ProcessResult(alertRepo, ruleRepo, results[i], userId, notify, generateAi, generator, now,
                                    alerts, sent, Triggered(results[..i]), rows0, next0, rules0);
    }
    assert results[..|results|] == results;
  }

  /** `create_test_alert(user_id, symbol, message, notify)` at time `now`:
      hangs the alert off the user's test rule, creating that rule (a
      disabled `price_below_value` rule with threshold 0) only when it is
      missing; no rule's trigger stamp changes. */
  method CreateTestAlert(alertRepo: AlertRepository, ruleRepo: RuleRepository, userId: Id, symbol: string,
                         message: string, notify: bool, now: int)
    returns (a: Alert, sent: seq<Alert>)
    requires alertRepo.Valid() && ruleRepo.Valid()
    modifies alertRepo, ruleRepo
    ensures alertRepo.Valid() && ruleRepo.Valid()
    ensures RuleByName(old(ruleRepo.rows), TestRuleName, userId).Some? ==>
              ruleRepo.rows == old(ruleRepo.rows) && ruleRepo.nextId == old(ruleRepo.nextId)
              && a.ruleId == RuleByName(old(ruleRepo.rows), TestRuleName, userId).value.id
    ensures RuleByName(old(ruleRepo.rows), TestRuleName, userId).None? ==>
              ruleRepo.rows == old(ruleRepo.rows) + [Rule(old(ruleRepo.nextId), userId, TestRuleName,
                                                          Tag(PriceBelowValue), 0.0, None, false,
                                                          DefaultCooldownMinutes, None)]
              && a.ruleId == old(ruleRepo.nextId) && ruleRepo.nextId == old(ruleRepo.nextId) + 1
    ensures a == Alert(old(alertRepo.nextId), userId, a.ruleId, None, Upper(symbol), message, None, now, false)
    ensures alertRepo.rows == old(alertRepo.rows) + [a] && alertRepo.nextId == old(alertRepo.nextId) + 1
    ensures sent == if notify then [a] else []
  {
    var existing := RuleByName(ruleRepo.rows, TestRuleName, userId);
    var rule: Rule;
    if existing.Some? {
      rule := existing.value;
    } else {
      rule := ruleRepo.Create(TestRuleName, PriceBelowValue, 0.0, None, false, DefaultCooldownMinutes, userId);
    }
    UpperIdempotent(symbol);
    a := alertRepo.Create(userId, rule.id, Upper(symbol), message, None, None, now);
    sent := if notify then [a] else [];
  }
}
