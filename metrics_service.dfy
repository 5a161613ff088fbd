/** `MetricsService`: feedback breakdowns, price movement after alerts,
    per-rule and per-asset metrics, the best and noisiest rule, and the
    summary highlights.  Timestamps are whole seconds and `now` is a
    parameter; Python's float arithmetic is modelled as exact real
    arithmetic. */
module Metrics {
  import opened Common
  import opened Sorting
  import opened Records
  import opened MetricsModels
  import opened RuleStore

  const SecondsPerDay: int := 86400

  /** A price column as the metrics code sees it: a number, NULL, a NaN,
      or a value of another type. */
  datatype PriceValue = Missing | NotANumber | NotNumeric | Number(amount: real)

  /** The columns of an alert row the metrics read. */
  datatype MetricAlert = MetricAlert(
    ruleId: Id,
    userId: Id,
    symbol: string,
    triggeredAt: int,
    feedback: Option<string>,
    priceAtAlert: PriceValue,
    priceAfter3d: PriceValue,
    priceAfter7d: PriceValue,
    priceAfter30d: PriceValue)

  // ---------------------------------------------------------------------
  // Feedback breakdown
  // ---------------------------------------------------------------------

  predicate IsUseful(a: MetricAlert) { a.feedback == Some("useful") }
  predicate IsNoise(a: MetricAlert) { a.feedback == Some("noise") }
  predicate IsActionable(a: MetricAlert) { a.feedback == Some("actionable") }

  /** Any feedback but the three labels, a missing one included. */
  predicate IsUnrated(a: MetricAlert) { !IsUseful(a) && !IsNoise(a) && !IsActionable(a) }

  /** One alert's step of the breakdown loop. */
  function Bump(b: FeedbackBreakdown, a: MetricAlert): FeedbackBreakdown {
    if IsUseful(a) then b.(useful := b.useful + 1)
    else if IsNoise(a) then b.(noise := b.noise + 1)
    else if IsActionable(a) then b.(actionable := b.actionable + 1)
    else b.(unrated := b.unrated + 1)
  }

  /** The breakdown loop run from `b` over `alerts`. */
  function Tally(b: FeedbackBreakdown, alerts: seq<MetricAlert>): FeedbackBreakdown {
    if alerts == [] then b else Bump(Tally(b, alerts[..|alerts| - 1]), alerts[|alerts| - 1])
  }

  /** The breakdown of `alerts`: the total is set up front. */
  function Breakdown(alerts: seq<MetricAlert>): FeedbackBreakdown {
    Tally(FeedbackBreakdown(|alerts|, 0, 0, 0, 0), alerts)
  }

  /** `_get_feedback_breakdown_for_alerts(alerts)` */
  method FeedbackBreakdownForAlerts(alerts: seq<MetricAlert>) returns (b: FeedbackBreakdown)
    ensures b == Breakdown(alerts)
  {
    var start := FeedbackBreakdown(|alerts|, 0, 0, 0, 0);
    b := start;
    for i := 0 to |alerts|
      invariant b == Tally(start, alerts[..i])
    {
      var a := alerts[i];
      assert alerts[..i + 1][..i] == alerts[..i];
      if a.feedback == Some("useful") {
        b := b.(useful := b.useful + 1);
      } else if a.feedback == Some("noise") {
        b := b.(noise := b.noise + 1);
      } else if a.feedback == Some("actionable") {
        b := b.(actionable := b.actionable + 1);
      } else {
        b := b.(unrated := b.unrated + 1);
      }
    }
    assert alerts[..|alerts|] == alerts;
  }

  lemma {:induction false} TallyCounts(b: FeedbackBreakdown, alerts: seq<MetricAlert>)
    ensures var t := Tally(b, alerts);
      && t.total == b.total
      && t.useful == b.useful + |Filter(IsUseful, alerts)|
      && t.noise == b.noise + |Filter(IsNoise, alerts)|
      && t.actionable == b.actionable + |Filter(IsActionable, alerts)|
      && t.unrated == b.unrated + |Filter(IsUnrated, alerts)|
  {
    if alerts != [] {
      var n := |alerts| - 1;
      TallyCounts(b, alerts[..n]);
      assert alerts == alerts[..n] + [alerts[n]];
      FilterSnoc(IsUseful, alerts[..n], alerts[n]);
      FilterSnoc(IsNoise, alerts[..n], alerts[n]);
      FilterSnoc(IsActionable, alerts[..n], alerts[n]);
      FilterSnoc(IsUnrated, alerts[..n], alerts[n]);
    }
  }

  /** Each count is the number of alerts with that label, unrecognised
      labels count as unrated, and every alert lands in exactly one of the
      four buckets. */
  lemma BreakdownCounts(alerts: seq<MetricAlert>)
    ensures var b := Breakdown(alerts);
      && b.total == |alerts|
      && b.useful == |Filter(IsUseful, alerts)|
      && b.noise == |Filter(IsNoise, alerts)|
      && b.actionable == |Filter(IsActionable, alerts)|
      && b.unrated == |Filter(IsUnrated, alerts)|
      && b.useful + b.noise + b.actionable + b.unrated == b.total
      && RatedCount(b) <= b.total
  {
    TallyCounts(FeedbackBreakdown(|alerts|, 0, 0, 0, 0), alerts);
    BucketsPartition(alerts);
  }

  lemma {:induction false} BucketsPartition(alerts: seq<MetricAlert>)
    ensures |Filter(IsUseful, alerts)| + |Filter(IsNoise, alerts)| + |Filter(IsActionable, alerts)|
            + |Filter(IsUnrated, alerts)| == |alerts|
  {
    if alerts != [] {
      BucketsPartition(alerts[1..]);
    }
  }

  // ---------------------------------------------------------------------
  // Price movement
  // ---------------------------------------------------------------------

  /** `_is_valid_price(price)`: NULL, NaN, a value of another type and a
      number that is not positive are all invalid. */
  function IsValidPrice(p: PriceValue): (r: bool)
    ensures r <==> p.Number? && p.amount > 0.0
  {
    match p
    case Missing => false
    case NotANumber => false
    case NotNumeric => false
    case Number(x) => x > 0.0
  }

  datatype Horizon = ThreeDays | SevenDays | ThirtyDays

  function PriceAfter(a: MetricAlert, h: Horizon): PriceValue {
    match h
    case ThreeDays => a.priceAfter3d
    case SevenDays => a.priceAfter7d
    case ThirtyDays => a.priceAfter30d
  }

  /** Both the alert-time price and the later price are valid. */
  predicate Qualifies(h: Horizon, a: MetricAlert) {
    IsValidPrice(a.priceAtAlert) && IsValidPrice(PriceAfter(a, h))
  }

  function QualifiesAt(h: Horizon): MetricAlert -> bool {
    (a: MetricAlert) => Qualifies(h, a)
  }

  /** The percentage change of a qualifying alert's price. */
  function Change(h: Horizon, a: MetricAlert): (c: real)
    requires Qualifies(h, a)
    ensures c > -100.0
  {
    var p0 := a.priceAtAlert.amount;
    var p1 := PriceAfter(a, h).amount;
    assert (p1 - p0) / p0 > -1.0 by {
      assert p1 - p0 > -p0;
    }
    ((p1 - p0) / p0) * 100.0
  }

  /** The changes of the qualifying alerts, in order. */
  function Changes(h: Horizon, alerts: seq<MetricAlert>): (r: seq<real>)
    ensures |r| == |Filter(QualifiesAt(h), alerts)|
    ensures forall i :: 0 <= i < |r| ==> r[i] > -100.0
  {
    var qs := Filter(QualifiesAt(h), alerts);
    seq(|qs|, i requires 0 <= i < |qs| => Change(h, qs[i]))
  }

  function Sum(cs: seq<real>): real {
    if cs == [] then 0.0 else cs[0] + Sum(cs[1..])
  }

  lemma {:induction false} SumAbove(cs: seq<real>)
    requires forall i :: 0 <= i < |cs| ==> cs[i] > -100.0
    ensures cs != [] ==> Sum(cs) > -100.0 * |cs| as real
  {
    if |cs| > 1 {
      SumAbove(cs[1..]);
    }
  }

  predicate IsRise(c: real) { c > 0.0 }

  /** The average change and the share of rises over one horizon. */
  datatype Movement = Movement(avgChangePct: Option<real>, positiveRate: Option<real>)

  /** One horizon of `_calculate_price_movement`: both figures are None
      when no alert qualifies; otherwise the average change is above -100
      (both prices are positive) and the rise rate is a percentage. */
  function HorizonMovement(h: Horizon, alerts: seq<MetricAlert>): (m: Movement)
    ensures m.avgChangePct.None? <==> forall i :: 0 <= i < |alerts| ==> !Qualifies(h, alerts[i])
    ensures m.positiveRate.None? <==> m.avgChangePct.None?
    ensures m.avgChangePct.Some? ==> m.avgChangePct.value > -100.0
    ensures m.positiveRate.Some? ==> 0.0 <= m.positiveRate.value <= 100.0
  {
    var cs := Changes(h, alerts);
    FilterEmpty(QualifiesAt(h), alerts);
    if cs == [] then Movement(None, None)
    else
      var n := |cs| as real;
      SumAbove(cs);
      AverageAbove(Sum(cs), n);
      PercentOf(|Filter(IsRise, cs)|, |cs|);
      Movement(Some(Sum(cs) / n), Some((|Filter(IsRise, cs)| as real / n) * 100.0))
  }

  lemma AverageAbove(total: real, n: real)
    requires n > 0.0 && total > -100.0 * n
    ensures total / n > -100.0
  {
  }

  /** Alerts without both prices valid take no part in a horizon's figures. */
  lemma MovementIgnoresUnqualified(h: Horizon, alerts: seq<MetricAlert>, extra: seq<MetricAlert>)
    requires forall i :: 0 <= i < |extra| ==> !Qualifies(h, extra[i])
    ensures HorizonMovement(h, alerts + extra) == HorizonMovement(h, alerts)
  {
    FilterConcat(QualifiesAt(h), alerts, extra);
    FilterEmpty(QualifiesAt(h), extra);
    assert Filter(QualifiesAt(h), alerts + extra) == Filter(QualifiesAt(h), alerts);
  }

  /** `PriceMovement` */
  datatype PriceMovement = PriceMovement(
    avg3dChangePct: Option<real>, avg7dChangePct: Option<real>, avg30dChangePct: Option<real>,
    positive3dRate: Option<real>, positive7dRate: Option<real>, positive30dRate: Option<real>)

  /** `_calculate_price_movement(alerts)`: the three horizons side by side. */
  function PriceMovementOf(alerts: seq<MetricAlert>): PriceMovement {
    var m3 := HorizonMovement(ThreeDays, alerts);
    var m7 := HorizonMovement(SevenDays, alerts);
    var m30 := HorizonMovement(ThirtyDays, alerts);
    PriceMovement(m3.avgChangePct, m7.avgChangePct, m30.avgChangePct,
                  m3.positiveRate, m7.positiveRate, m30.positiveRate)
  }

  // ---------------------------------------------------------------------
  // Time windows and firing rate
  // ---------------------------------------------------------------------

  function Since(t: int): MetricAlert -> bool {
    (a: MetricAlert) => a.triggeredAt >= t
  }

  /** The alerts triggered at or after `t`. */
  function CountSince(alerts: seq<MetricAlert>, t: int): (n: nat)
    ensures n <= |alerts|
  {
    |Filter(Since(t), alerts)|
  }

  /** A later window start counts no more alerts. */
  lemma WindowsNested(alerts: seq<MetricAlert>, t1: int, t2: int)
    requires t1 <= t2
    ensures CountSince(alerts, t2) <= CountSince(alerts, t1)
  {
    FilterWeaker(Since(t2), Since(t1), alerts);
  }

  function WeekAgo(now: int): int { now - 7 * SecondsPerDay }

  function PeriodStart(now: int, periodDays: int): int { now - periodDays * SecondsPerDay }

  /** `max(alerts, key=triggered_at).triggered_at` */
  function LatestTime(alerts: seq<MetricAlert>): (t: int)
    requires alerts != []
    ensures exists i :: 0 <= i < |alerts| && alerts[i].triggeredAt == t
    ensures forall i :: 0 <= i < |alerts| ==> alerts[i].triggeredAt <= t
  {
    if |alerts| == 1 then alerts[0].triggeredAt
    else
      var rest := LatestTime(alerts[1..]);
      assert forall i :: 1 <= i < |alerts| ==> alerts[i] == alerts[1..][i - 1];
      if alerts[0].triggeredAt >= rest then alerts[0].triggeredAt else rest
  }

  /** `min(alerts, key=triggered_at).triggered_at` */
  function OldestTime(alerts: seq<MetricAlert>): (t: int)
    requires alerts != []
    ensures exists i :: 0 <= i < |alerts| && alerts[i].triggeredAt == t
    ensures forall i :: 0 <= i < |alerts| ==> alerts[i].triggeredAt >= t
  {
    if |alerts| == 1 then alerts[0].triggeredAt
    else
      var rest := OldestTime(alerts[1..]);
      assert forall i :: 1 <= i < |alerts| ==> alerts[i] == alerts[1..][i - 1];
      if alerts[0].triggeredAt <= rest then alerts[0].triggeredAt else rest
  }

  function MaxReal(x: real, y: real): real { if x >= y then x else y }

  /** `avg_fires_per_week` for `n` alerts spread over `spanSeconds`: 0 for
      at most one alert; otherwise `n` over the span in weeks, the span
      counted as at least one day and the weeks as at least one, so the
      rate never exceeds `n` and equals `n` over a span of a week or less. */
  function AvgFiresPerWeek(n: nat, spanSeconds: real): (r: real)
    ensures n <= 1 ==> r == 0.0
    ensures n > 1 ==> 0.0 < r <= n as real
    ensures n > 1 && spanSeconds <= 7.0 * SecondsPerDay as real ==> r == n as real
  {
    if n <= 1 then 0.0
    else
      var daysSpan := MaxReal(spanSeconds / SecondsPerDay as real, 1.0);
      var weeksSpan := daysSpan / 7.0;
      var w := MaxReal(weeksSpan, 1.0);
      assert n as real / w <= n as real by {
        assert n as real <= n as real * w;
      }
      n as real / w
  }

  // ---------------------------------------------------------------------
  // Per-rule metrics
  // ---------------------------------------------------------------------

  /** `RuleMetrics` */
  datatype RuleMetrics = RuleMetrics(
    ruleId: Id,
    ruleName: string,
    ruleType: string,
    symbol: Option<string>,
    enabled: bool,
    totalAlerts: nat,
    alertsLast7d: nat,
    alertsLastPeriod: nat,
    feedback: FeedbackBreakdown,
    priceMovement: PriceMovement,
    lastFiredAt: Option<int>,
    avgFiresPerWeek: real)

  function ForRule(ruleId: Id): MetricAlert -> bool {
    (a: MetricAlert) => a.ruleId == ruleId
  }

  /** `query(Alert).filter(Alert.rule_id == rule.id)`: every user's alerts
      of the rule, in table order. */
  function RuleAlerts(alertTable: seq<MetricAlert>, ruleId: Id): seq<MetricAlert> {
    Filter(ForRule(ruleId), alertTable)
  }

  /** The last firing: the latest trigger time, None without alerts. */
  function LastFired(alerts: seq<MetricAlert>): (t: Option<int>)
    ensures t.None? <==> alerts == []
    ensures t.Some? ==> (forall i :: 0 <= i < |alerts| ==> alerts[i].triggeredAt <= t.value)
                        && (exists i :: 0 <= i < |alerts| && alerts[i].triggeredAt == t.value)
  {
    if alerts == [] then None else Some(LatestTime(alerts))
  }

  /** The firing rate of a list of alerts: 0 for at most one alert,
      otherwise positive and at most the count. */
  function FiringRate(alerts: seq<MetricAlert>): (r: real)
    ensures |alerts| <= 1 ==> r == 0.0
    ensures |alerts| > 1 ==> 0.0 < r <= |alerts| as real
  {
    if |alerts| > 1 then AvgFiresPerWeek(|alerts|, (LatestTime(alerts) - OldestTime(alerts)) as real)
    else 0.0
  }

  /** One rule's entry of `get_rule_metrics`: its fields copied from the
      rule, counts over every alert of the rule, the window counts bounded
      by the total and nested when the period covers the week. */
  function RuleMetricsOf(rule: Rule, alertTable: seq<MetricAlert>, now: int, periodDays: int): (m: RuleMetrics)
    ensures m.ruleId == rule.id && m.ruleName == rule.name && m.ruleType == rule.ruleType
    ensures m.symbol == rule.symbol && m.enabled == rule.enabled
    ensures m.totalAlerts == |RuleAlerts(alertTable, rule.id)|
    ensures m.alertsLast7d <= m.totalAlerts && m.alertsLastPeriod <= m.totalAlerts
    ensures periodDays >= 7 ==> m.alertsLast7d <= m.alertsLastPeriod
  {
    var alerts := RuleAlerts(alertTable, rule.id);
    var week := CountSince(alerts, WeekAgo(now));
    var period := CountSince(alerts, PeriodStart(now, periodDays));
    assert periodDays >= 7 ==> week <= period by {
      if periodDays >= 7 {
        WindowsNested(alerts, PeriodStart(now, periodDays), WeekAgo(now));
      }
    }
    RuleMetrics(rule.id, rule.name, rule.ruleType, rule.symbol, rule.enabled,
                |alerts|, week, period, Breakdown(alerts), PriceMovementOf(alerts),
                LastFired(alerts), FiringRate(alerts))
  }

  /** The entries of the user's rules, in rule order. */
  function RuleMetricsList(rules: seq<Rule>, alertTable: seq<MetricAlert>, now: int, periodDays: int)
    : (r: seq<RuleMetrics>)
    ensures |r| == |rules|
  {
    if rules == [] then []
    else RuleMetricsList(rules[..|rules| - 1], alertTable, now, periodDays)
         + [RuleMetricsOf(rules[|rules| - 1], alertTable, now, periodDays)]
  }

  function RuleTotalKey(m: RuleMetrics): real { m.totalAlerts as real }

  /** The loop of `get_rule_metrics`: one entry per rule, appended in rule
      order. */
  method MetricsOfRules(rules: seq<Rule>, alertTable: seq<MetricAlert>, now: int, periodDays: int)
    returns (list: seq<RuleMetrics>)
    ensures list == RuleMetricsList(rules, alertTable, now, periodDays)
  {
    list := [];
    for i := 0 to |rules|
      invariant list == RuleMetricsList(rules[..i], alertTable, now, periodDays)
    {
      PrefixStep(rules, i);
      list := list + [RuleMetricsOf(rules[i], alertTable, now, periodDays)];
    }
    assert rules[..|rules|] == rules;
  }

  /** `get_rule_metrics(user_id, period_days)` at time `now`: one entry per
      rule of the user, sorted by alert count, most first. */
  method GetRuleMetrics(ruleTable: seq<Rule>, alertTable: seq<MetricAlert>, userId: Id, now: int, periodDays: int)
    returns (ms: seq<RuleMetrics>)
    ensures var unsorted := RuleMetricsList(UserRules(ruleTable, userId), alertTable, now, periodDays);
            && ms == SortBy(RuleTotalKey, unsorted)
            && multiset(ms) == multiset(unsorted)
            && (forall i, j :: 0 <= i < j < |ms| ==> ms[i].totalAlerts >= ms[j].totalAlerts)
  {
    var list := MetricsOfRules(UserRules(ruleTable, userId), alertTable, now, periodDays);
    ms := SortBy(RuleTotalKey, list);
    SortedByTotal(list);
  }

  /** Sorting by alert count keeps the entries and puts the most alerts
      first. */
  lemma SortedByTotal(list: seq<RuleMetrics>)
    ensures var ms := SortBy(RuleTotalKey, list);
            && multiset(ms) == multiset(list)
            && (forall i, j :: 0 <= i < j < |ms| ==> ms[i].totalAlerts >= ms[j].totalAlerts)
  {
    SortByPermutes(RuleTotalKey, list);
    SortBySorted(RuleTotalKey, list);
  }

  // ---------------------------------------------------------------------
  // First maximum and minimum (`max`/`min` with a key)
  // ---------------------------------------------------------------------

  /** `max(xs, key=key)`: the position of the first element with the
      largest key, None for an empty list. */
  function FirstMaxBy<T>(xs: seq<T>, key: T -> real): (r: Option<nat>)
    ensures r.None? <==> xs == []
    ensures r.Some? ==> r.value < |xs|
                        && (forall j :: 0 <= j < |xs| ==> key(xs[j]) <= key(xs[r.value]))
                        && (forall j :: 0 <= j < r.value ==> key(xs[j]) < key(xs[r.value]))
  {
    if xs == [] then None
    else
      var n := |xs| - 1;
      assert forall j :: 0 <= j < n ==> xs[..n][j] == xs[j];
      match FirstMaxBy(xs[..n], key)
      case None => Some(n)
      case Some(i) => if key(xs[n]) > key(xs[i]) then Some(n) else Some(i)
  }

  /** `min(xs, key=key)`: the position of the first element with the
      smallest key, None for an empty list. */
  function FirstMinBy<T>(xs: seq<T>, key: T -> real): (r: Option<nat>)
    ensures r.None? <==> xs == []
    ensures r.Some? ==> r.value < |xs|
                        && (forall j :: 0 <= j < |xs| ==> key(xs[j]) >= key(xs[r.value]))
                        && (forall j :: 0 <= j < r.value ==> key(xs[j]) > key(xs[r.value]))
  {
    if xs == [] then None
    else
      var n := |xs| - 1;
      assert forall j :: 0 <= j < n ==> xs[..n][j] == xs[j];
      match FirstMinBy(xs[..n], key)
      case None => Some(n)
      case Some(i) => if key(xs[n]) < key(xs[i]) then Some(n) else Some(i)
  }

  // ---------------------------------------------------------------------
  // Per-asset metrics
  // ---------------------------------------------------------------------

  function ForUser(userId: Id): MetricAlert -> bool {
    (a: MetricAlert) => a.userId == userId
  }

  function ForUserSymbol(userId: Id, symbol: string): MetricAlert -> bool {
    (a: MetricAlert) => a.userId == userId && a.symbol == symbol
  }

  /** The user's alerts, in table order. */
  function UserAlerts(alertTable: seq<MetricAlert>, userId: Id): seq<MetricAlert> {
    Filter(ForUser(userId), alertTable)
  }

  /** The user's alerts on one symbol, in table order. */
  function SymbolAlerts(alertTable: seq<MetricAlert>, userId: Id, symbol: string): seq<MetricAlert> {
    Filter(ForUserSymbol(userId, symbol), alertTable)
  }

  /** The distinct symbols of `alerts`, in order of first appearance. */
  function SymbolsOf(alerts: seq<MetricAlert>): (r: seq<string>)
    ensures Distinct(r)
    ensures forall s :: s in r <==> exists i :: 0 <= i < |alerts| && alerts[i].symbol == s
  {
    if alerts == [] then []
    else
      var n := |alerts| - 1;
      var p := SymbolsOf(alerts[..n]);
      assert forall i :: 0 <= i < n ==> alerts[..n][i] == alerts[i];
      if alerts[n].symbol in p then p else p + [alerts[n].symbol]
  }

  /** The distinct rule ids of `alerts`, in order of first appearance
      (the key order of the grouping dictionary). */
  function RuleOrder(alerts: seq<MetricAlert>): (r: seq<Id>)
    ensures Distinct(r)
    ensures forall id :: id in r <==> exists i :: 0 <= i < |alerts| && alerts[i].ruleId == id
  {
    if alerts == [] then []
    else
      var n := |alerts| - 1;
      var p := RuleOrder(alerts[..n]);
      assert forall i :: 0 <= i < n ==> alerts[..n][i] == alerts[i];
      if alerts[n].ruleId in p then p else p + [alerts[n].ruleId]
  }

  /** `rules_by_id.get(alert.rule_id)`'s type, None when the rule is not
      among `rules`. */
  function TypeOfAlert(rules: seq<Rule>, a: MetricAlert): Option<string> {
    match FindRule(rules, a.ruleId)
    case Some(r) => Some(r.ruleType)
    case None => None
  }

  /** An alert whose rule is among `rules` and has type `t`. */
  function OfRuleType(rules: seq<Rule>, t: string): MetricAlert -> bool {
    (a: MetricAlert) => TypeOfAlert(rules, a) == Some(t)
  }

  function TypeCount(alerts: seq<MetricAlert>, rules: seq<Rule>, t: string): nat {
    |Filter(OfRuleType(rules, t), alerts)|
  }

  /** The rule types of the alerts whose rule is known. */
  function KnownTypes(alerts: seq<MetricAlert>, rules: seq<Rule>): set<string> {
    set i | 0 <= i < |alerts| && TypeOfAlert(rules, alerts[i]).Some? :: TypeOfAlert(rules, alerts[i]).value
  }

  /** `alerts_by_rule_type`: alerts per rule type. */
  function TypeCounts(alerts: seq<MetricAlert>, rules: seq<Rule>): map<string, nat> {
    map t | t in KnownTypes(alerts, rules) :: TypeCount(alerts, rules, t)
  }

  /** A type is a key exactly when some alert's rule has it, and then it
      maps to the number of such alerts; alerts whose rule is not among
      `rules` are not counted. */
  lemma TypeCountsKeys(alerts: seq<MetricAlert>, rules: seq<Rule>)
    ensures forall t :: t in TypeCounts(alerts, rules) <==> TypeCount(alerts, rules, t) > 0
    ensures forall t :: t in TypeCounts(alerts, rules) ==> TypeCounts(alerts, rules)[t] <= |alerts|
  {
    forall t ensures t in KnownTypes(alerts, rules) <==> TypeCount(alerts, rules, t) > 0 {
      KnownTypeCounted(alerts, rules, t);
    }
  }

  lemma KnownTypeCounted(alerts: seq<MetricAlert>, rules: seq<Rule>, t: string)
    ensures t in KnownTypes(alerts, rules) <==> TypeCount(alerts, rules, t) > 0
  {
    FilterEmpty(OfRuleType(rules, t), alerts);
  }

  /** One more alert adds one to its rule's type and nothing else. */
  lemma TypeCountSnoc(alerts: seq<MetricAlert>, rules: seq<Rule>, a: MetricAlert)
    ensures forall t :: TypeCount(alerts + [a], rules, t)
                        == TypeCount(alerts, rules, t) + (if TypeOfAlert(rules, a) == Some(t) then 1 else 0)
    ensures KnownTypes(alerts + [a], rules)
            == KnownTypes(alerts, rules) + (if TypeOfAlert(rules, a).Some? then {TypeOfAlert(rules, a).value} else {})
  {
    forall t ensures TypeCount(alerts + [a], rules, t)
                     == TypeCount(alerts, rules, t) + (if TypeOfAlert(rules, a) == Some(t) then 1 else 0) {
      FilterSnoc(OfRuleType(rules, t), alerts, a);
    }
    var s := alerts + [a];
    assert forall i :: 0 <= i < |alerts| ==> s[i] == alerts[i];
    assert s[|alerts|] == a;
  }

  /** `counts` is the rule-type dictionary of `alerts`. */
  ghost predicate CountsOf(counts: map<string, nat>, alerts: seq<MetricAlert>, rules: seq<Rule>) {
    (forall t :: t in counts <==> t in KnownTypes(alerts, rules))
    && forall t :: t in counts ==> counts[t] == TypeCount(alerts, rules, t)
  }

  /** `rule_type_counts[rule.rule_type] += 1` for one more alert. */
  function Counted(counts: map<string, nat>, ty: Option<string>): map<string, nat> {
    match ty
    case Some(t) => counts[t := if t in counts then counts[t] + 1 else 1]
    case None => counts
  }

  lemma CountsStep(counts: map<string, nat>, alerts: seq<MetricAlert>, rules: seq<Rule>, a: MetricAlert)
    requires CountsOf(counts, alerts, rules)
    ensures CountsOf(Counted(counts, TypeOfAlert(rules, a)), alerts + [a], rules)
  {
    TypeCountSnoc(alerts, rules, a);
    var ty := TypeOfAlert(rules, a);
    if ty.Some? {
      KnownTypeCounted(alerts, rules, ty.value);
    }
  }

  /** The rule-type loop of `get_asset_metrics` over `rules_by_id`. */
  method RuleTypeCounts(alerts: seq<MetricAlert>, rules: seq<Rule>) returns (counts: map<string, nat>)
    ensures counts == TypeCounts(alerts, rules)
  {
    counts := map[];
    for i := 0 to |alerts|
      invariant CountsOf(counts, alerts[..i], rules)
    {
      var a := alerts[i];
      assert alerts[..i + 1] == alerts[..i] + [a];
      CountsStep(counts, alerts[..i], rules, a);
      var ty := TypeOfAlert(rules, a);
      if ty.Some? {
        var t := ty.value;
        counts := counts[t := if t in counts then counts[t] + 1 else 1];
      }
    }
    assert alerts[..|alerts|] == alerts;
  }

  /** The dictionary entry `_get_rule_usefulness_for_symbol` keeps for a
      rule: its usefulness over the rule's alerts, when at least two of
      them are rated. */
  function EntryOf(alerts: seq<MetricAlert>): Id -> Option<(Id, real)> {
    (id: Id) =>
      var b := Breakdown(RuleAlerts(alerts, id));
      if RatedCount(b) >= 2 && UsefulnessRate(b).Some? then Some((id, UsefulnessRate(b).value)) else None
  }

  /** The usefulness dictionary over `alerts` as (rule id, rate) pairs in
      key order. */
  function UsefulnessEntries(alerts: seq<MetricAlert>): seq<(Id, real)> {
    Collect(EntryOf(alerts), RuleOrder(alerts))
  }

  lemma EntryOfValue(alerts: seq<MetricAlert>, id: Id)
    ensures var b := Breakdown(RuleAlerts(alerts, id));
      EntryOf(alerts)(id) == if RatedCount(b) >= 2 then Some((id, UsefulnessRate(b).value)) else None
  {
  }

  /** A rule has an entry exactly when it has an alert and at least two of
      its alerts are rated, and the entry holds its usefulness rate. */
  lemma UsefulnessEntriesSpec(alerts: seq<MetricAlert>)
    ensures forall e :: e in UsefulnessEntries(alerts) ==>
              RatedCount(Breakdown(RuleAlerts(alerts, e.0))) >= 2
              && e.1 == UsefulnessRate(Breakdown(RuleAlerts(alerts, e.0))).value
              && exists i :: 0 <= i < |alerts| && alerts[i].ruleId == e.0
    ensures forall id :: (exists i :: 0 <= i < |alerts| && alerts[i].ruleId == id)
                         && RatedCount(Breakdown(RuleAlerts(alerts, id))) >= 2 ==>
              (id, UsefulnessRate(Breakdown(RuleAlerts(alerts, id))).value) in UsefulnessEntries(alerts)
  {
    var order := RuleOrder(alerts);
    var f := EntryOf(alerts);
    forall e | e in UsefulnessEntries(alerts)
      ensures RatedCount(Breakdown(RuleAlerts(alerts, e.0))) >= 2
              && e.1 == UsefulnessRate(Breakdown(RuleAlerts(alerts, e.0))).value
              && e.0 in order
    {
      CollectMembers(f, order, e);
      var k :| 0 <= k < |order| && f(order[k]) == Some(e);
      EntryOfValue(alerts, order[k]);
    }
    forall id | (exists i :: 0 <= i < |alerts| && alerts[i].ruleId == id)
                && RatedCount(Breakdown(RuleAlerts(alerts, id))) >= 2
      ensures (id, UsefulnessRate(Breakdown(RuleAlerts(alerts, id))).value) in UsefulnessEntries(alerts)
    {
      assert id in order;
      var k :| 0 <= k < |order| && order[k] == id;
      EntryOfValue(alerts, id);
      CollectMembers(f, order, (id, UsefulnessRate(Breakdown(RuleAlerts(alerts, id))).value));
    }
  }

  /** No rule has two entries. */
  lemma UsefulnessKeysDistinct(alerts: seq<MetricAlert>)
    ensures forall i, j :: 0 <= i < j < |UsefulnessEntries(alerts)| ==>
              UsefulnessEntries(alerts)[i].0 != UsefulnessEntries(alerts)[j].0
  {
    EntryKeysDistinct(alerts, RuleOrder(alerts));
  }

  lemma EntryKeysDistinct(alerts: seq<MetricAlert>, order: seq<Id>)
    requires Distinct(order)
    ensures forall i, j :: 0 <= i < j < |Collect(EntryOf(alerts), order)| ==>
              Collect(EntryOf(alerts), order)[i].0 != Collect(EntryOf(alerts), order)[j].0
  {
    forall id ensures EntryOf(alerts)(id).Some? ==> EntryOf(alerts)(id).value.0 == id {
      EntryOfValue(alerts, id);
    }
    CollectKeysDistinct(EntryOf(alerts), order);
  }

  /** A loop that keeps keyed outcomes of distinct keys keeps no key twice. */
  lemma {:induction false} CollectKeysDistinct<K, V>(f: K -> Option<(K, V)>, order: seq<K>)
    requires Distinct(order)
    requires forall k :: f(k).Some? ==> f(k).value.0 == k
    ensures forall i :: 0 <= i < |Collect(f, order)| ==> Collect(f, order)[i].0 in order
    ensures forall i, j :: 0 <= i < j < |Collect(f, order)| ==> Collect(f, order)[i].0 != Collect(f, order)[j].0
  {
    if order != [] {
      var n := |order| - 1;
      var init := order[..n];
      assert forall i, j :: 0 <= i < j < n ==> init[i] == order[i] && init[j] == order[j];
      CollectKeysDistinct(f, init);
      var p := Collect(f, init);
      assert Collect(f, order) == p + OptionToSeq(f(order[n]));
      assert forall x :: x in init ==> x in order;
    }
  }

  /** `_get_rule_usefulness_for_symbol(user_id, symbol)`: groups the
      user's alerts on the symbol by rule, then keeps the rate of every
      rule with at least two rated alerts. */
  method RuleUsefulnessForSymbol(alertTable: seq<MetricAlert>, userId: Id, symbol: string)
    returns (entries: seq<(Id, real)>)
    ensures entries == UsefulnessEntries(SymbolAlerts(alertTable, userId, symbol))
  {
    var alerts := SymbolAlerts(alertTable, userId, symbol);
    var groups, order := GroupByRule(alerts);
    entries := UsefulnessOfGroups(alerts, groups, order);
  }

  /** The loop over the groups: an entry for each rule, in key order, with
      at least two rated alerts. */
  method UsefulnessOfGroups(alerts: seq<MetricAlert>, groups: map<Id, seq<MetricAlert>>, order: seq<Id>)
    returns (entries: seq<(Id, real)>)
    requires forall id :: id in order ==> id in groups && groups[id] == RuleAlerts(alerts, id)
    ensures entries == Collect(EntryOf(alerts), order)
  {
    entries := [];
    for j := 0 to |order|
      invariant entries == Collect(EntryOf(alerts), order[..j])
    {
      CollectSnoc(EntryOf(alerts), order, j);
      var id := order[j];
      EntryOfValue(alerts, id);
      var feedback := FeedbackBreakdownForAlerts(groups[id]);
      if RatedCount(feedback) >= 2 {
        var rate := UsefulnessRate(feedback);
        if rate.Some? {
          entries := entries + [(id, rate.value)];
        }
      }
    }
    assert order[..|order|] == order;
  }

  /** `for alert in alerts: rule_alerts[alert.rule_id].append(alert)` */
  method GroupByRule(alerts: seq<MetricAlert>) returns (groups: map<Id, seq<MetricAlert>>, order: seq<Id>)
    ensures order == RuleOrder(alerts)
    ensures forall id :: id in groups <==> id in order
    ensures forall id :: id in groups ==> groups[id] == RuleAlerts(alerts, id)
  {
    groups := map[];
    order := [];
    for i := 0 to |alerts|
      invariant order == RuleOrder(alerts[..i])
      invariant forall id :: id in groups <==> id in order
      invariant forall id :: id in groups ==> groups[id] == RuleAlerts(alerts[..i], id)
    {
      var a := alerts[i];
      PrefixStep(alerts, i);
      RuleAlertsSnoc(alerts[..i], a);
      if a.ruleId in groups {
        groups := groups[a.ruleId := groups[a.ruleId] + [a]];
      } else {
        FilterEmpty(ForRule(a.ruleId), alerts[..i]);
        groups := groups[a.ruleId := [a]];
        order := order + [a.ruleId];
      }
    }
    assert alerts[..|alerts|] == alerts;
  }

  lemma RuleAlertsSnoc(alerts: seq<MetricAlert>, a: MetricAlert)
    ensures forall id :: RuleAlerts(alerts + [a], id) == RuleAlerts(alerts, id) + (if a.ruleId == id then [a] else [])
  {
    forall id ensures RuleAlerts(alerts + [a], id) == RuleAlerts(alerts, id) + (if a.ruleId == id then [a] else []) {
      FilterSnoc(ForRule(id), alerts, a);
    }
  }

  /** `AssetMetrics` */
  datatype AssetMetrics = AssetMetrics(
    symbol: string,
    totalAlerts: nat,
    alertsLast7d: nat,
    alertsLastPeriod: nat,
    feedback: FeedbackBreakdown,
    priceMovement: PriceMovement,
    alertsByRuleType: map<string, nat>,
    bestRuleId: Option<Id>,
    bestRuleUsefulness: Option<real>)

  function EntryRate(e: (Id, real)): real { e.1 }

  /** `max(rule_usefulness.items(), key=rate)` when the dictionary is not
      empty: the first entry with the highest rate. */
  function BestEntry(es: seq<(Id, real)>): (r: Option<(Id, real)>)
    ensures r.None? <==> es == []
    ensures r.Some? ==> r.value in es && forall e :: e in es ==> e.1 <= r.value.1
    ensures r.Some? ==> exists k :: 0 <= k < |es| && es[k] == r.value && forall j :: 0 <= j < k ==> es[j].1 < r.value.1
  {
    match FirstMaxBy(es, EntryRate)
    case None => None
    case Some(k) => Some(es[k])
  }

  /** One symbol's entry of `get_asset_metrics`: counts over the user's
      alerts on the symbol, the window counts bounded by the total, and the
      best rule taken from the usefulness dictionary. */
  function AssetMetricsOf(ruleTable: seq<Rule>, alertTable: seq<MetricAlert>, userId: Id, symbol: string,
                          now: int, periodDays: int): (m: AssetMetrics)
    ensures m.symbol == symbol && m.totalAlerts == |SymbolAlerts(alertTable, userId, symbol)|
    ensures m.alertsLast7d <= m.totalAlerts && m.alertsLastPeriod <= m.totalAlerts
    ensures m.bestRuleId.None? <==> m.bestRuleUsefulness.None?
  {
    var alerts := SymbolAlerts(alertTable, userId, symbol);
    var best := BestEntry(UsefulnessEntries(alerts));
    AssetMetrics(symbol, |alerts|, CountSince(alerts, WeekAgo(now)), CountSince(alerts, PeriodStart(now, periodDays)),
                 Breakdown(alerts), PriceMovementOf(alerts), TypeCounts(alerts, UserRules(ruleTable, userId)),
                 if best.Some? then Some(best.value.0) else None,
                 if best.Some? then Some(best.value.1) else None)
  }

  /** The best rule of an asset is present exactly when some rule has at
      least two rated alerts on it, and it has the highest usefulness among
      such rules. */
  lemma AssetBestRule(ruleTable: seq<Rule>, alertTable: seq<MetricAlert>, userId: Id, symbol: string,
                      now: int, periodDays: int)
    ensures var alerts := SymbolAlerts(alertTable, userId, symbol);
      var m := AssetMetricsOf(ruleTable, alertTable, userId, symbol, now, periodDays);
      && (m.bestRuleId.None? <==>
            forall i :: 0 <= i < |alerts| ==> RatedCount(Breakdown(RuleAlerts(alerts, alerts[i].ruleId))) < 2)
      && (m.bestRuleId.Some? ==>
            RatedCount(Breakdown(RuleAlerts(alerts, m.bestRuleId.value))) >= 2
            && m.bestRuleUsefulness.value == UsefulnessRate(Breakdown(RuleAlerts(alerts, m.bestRuleId.value))).value
            && forall i :: 0 <= i < |alerts| && RatedCount(Breakdown(RuleAlerts(alerts, alerts[i].ruleId))) >= 2 ==>
                 UsefulnessRate(Breakdown(RuleAlerts(alerts, alerts[i].ruleId))).value <= m.bestRuleUsefulness.value)
  {
    BestUsefulEntry(SymbolAlerts(alertTable, userId, symbol));
  }

  /** The highest-rated usefulness entry of a list of alerts belongs to a
      rule with at least two rated alerts, and there is one exactly when
      some rule has that many. */
  lemma BestUsefulEntry(alerts: seq<MetricAlert>)
    ensures var best := BestEntry(UsefulnessEntries(alerts));
      && (best.None? <==>
            forall i :: 0 <= i < |alerts| ==> RatedCount(Breakdown(RuleAlerts(alerts, alerts[i].ruleId))) < 2)
      && (best.Some? ==>
            RatedCount(Breakdown(RuleAlerts(alerts, best.value.0))) >= 2
            && best.value.1 == UsefulnessRate(Breakdown(RuleAlerts(alerts, best.value.0))).value
            && forall i :: 0 <= i < |alerts| && RatedCount(Breakdown(RuleAlerts(alerts, alerts[i].ruleId))) >= 2 ==>
                 UsefulnessRate(Breakdown(RuleAlerts(alerts, alerts[i].ruleId))).value <= best.value.1)
  {
    var es := UsefulnessEntries(alerts);
    UsefulnessEntriesSpec(alerts);
    if es != [] {
      var e := es[0];
      assert e in es;
    }
  }

  /** The loop body of `get_asset_metrics` for one symbol. */
  method AssetMetricsFor(ruleTable: seq<Rule>, alertTable: seq<MetricAlert>, userId: Id, symbol: string,
                         now: int, periodDays: int)
    returns (m: AssetMetrics)
    ensures m == AssetMetricsOf(ruleTable, alertTable, userId, symbol, now, periodDays)
  {
    var rules := UserRules(ruleTable, userId);
    var alerts := SymbolAlerts(alertTable, userId, symbol);
    var feedback := FeedbackBreakdownForAlerts(alerts);
    var byType := RuleTypeCounts(alerts, rules);
    var usefulness := RuleUsefulnessForSymbol(alertTable, userId, symbol);
    var best := BestEntry(usefulness);
    m := AssetMetrics(symbol, |alerts|, CountSince(alerts, WeekAgo(now)),
                      CountSince(alerts, PeriodStart(now, periodDays)), feedback, PriceMovementOf(alerts), byType,
                      if best.Some? then Some(best.value.0) else None,
                      if best.Some? then Some(best.value.1) else None);
  }

  /** The entries of the given symbols, in order. */
  function AssetMetricsList(symbols: seq<string>, ruleTable: seq<Rule>, alertTable: seq<MetricAlert>, userId: Id,
                            now: int, periodDays: int): (r: seq<AssetMetrics>)
    ensures |r| == |symbols|
  {
    if symbols == [] then []
    else AssetMetricsList(symbols[..|symbols| - 1], ruleTable, alertTable, userId, now, periodDays)
         + [AssetMetricsOf(ruleTable, alertTable, userId, symbols[|symbols| - 1], now, periodDays)]
  }

  function AssetTotalKey(m: AssetMetrics): real { m.totalAlerts as real }

  /** The loop of `get_asset_metrics`: one entry per symbol, appended in
      symbol order. */
  method MetricsOfSymbols(symbols: seq<string>, ruleTable: seq<Rule>, alertTable: seq<MetricAlert>,
                          userId: Id, now: int, periodDays: int)
    returns (list: seq<AssetMetrics>)
    ensures list == AssetMetricsList(symbols, ruleTable, alertTable, userId, now, periodDays)
  {
    list := [];
    for i := 0 to |symbols|
      invariant list == AssetMetricsList(symbols[..i], ruleTable, alertTable, userId, now, periodDays)
    {
      PrefixStep(symbols, i);
      var m := AssetMetricsFor(ruleTable, alertTable, userId, symbols[i], now, periodDays);
      list := list + [m];
    }
    assert symbols[..|symbols|] == symbols;
  }

  /** `get_asset_metrics(user_id, period_days)` at time `now`: one entry per
      distinct symbol of the user's alerts, sorted by alert count, most
      first. */
  method GetAssetMetrics(ruleTable: seq<Rule>, alertTable: seq<MetricAlert>, userId: Id, now: int, periodDays: int)
    returns (ms: seq<AssetMetrics>)
    ensures var unsorted := AssetMetricsList(SymbolsOf(UserAlerts(alertTable, userId)), ruleTable, alertTable,
                                             userId, now, periodDays);
            && ms == SortBy(AssetTotalKey, unsorted)
            && multiset(ms) == multiset(unsorted)
            && (forall i, j :: 0 <= i < j < |ms| ==> ms[i].totalAlerts >= ms[j].totalAlerts)
  {
    var list := MetricsOfSymbols(SymbolsOf(UserAlerts(alertTable, userId)), ruleTable, alertTable,
                                 userId, now, periodDays);
    ms := SortBy(AssetTotalKey, list);
    SortedByAssetTotal(list);
  }

  /** Sorting by alert count keeps the entries and puts the most alerts
      first. */
  lemma SortedByAssetTotal(list: seq<AssetMetrics>)
    ensures var ms := SortBy(AssetTotalKey, list);
            && multiset(ms) == multiset(list)
            && (forall i, j :: 0 <= i < j < |ms| ==> ms[i].totalAlerts >= ms[j].totalAlerts)
  {
    SortByPermutes(AssetTotalKey, list);
    SortBySorted(AssetTotalKey, list);
  }


  // ---------------------------------------------------------------------
  // Best and noisiest rule
  // ---------------------------------------------------------------------

  /** The fewest rated alerts a rule needs before it is ranked. */
  const MinSampleSize: nat := 3

  /** The rate a ranking looks at: usefulness for the best rule, noise for
      the noisiest. */
  datatype Aspect = Usefulness | Noise

  /** The feedback over every alert of a rule. */
  function RuleFeedback(alertTable: seq<MetricAlert>, rule: Rule): FeedbackBreakdown {
    Breakdown(RuleAlerts(alertTable, rule.id))
  }

  /** A rule with enough rated alerts to be ranked. */
  predicate Ranked(alertTable: seq<MetricAlert>, rule: Rule) {
    RatedCount(RuleFeedback(alertTable, rule)) >= MinSampleSize
  }

  /** `rate or 0`: the chosen rate, 0 when it is None or 0.  Once any alert
      is rated the fallback changes nothing. */
  function Score(aspect: Aspect, b: FeedbackBreakdown): (r: real)
    ensures 0.0 <= r <= 100.0
    ensures RatedCount(b) > 0 ==>
              r == (if aspect.Usefulness? then UsefulnessRate(b) else NoiseRate(b)).value
  {
    var rate := if aspect.Usefulness? then UsefulnessRate(b) else NoiseRate(b);
    if rate.Some? && rate.value != 0.0 then rate.value else 0.0
  }

  function RuleScore(alertTable: seq<MetricAlert>, aspect: Aspect, rule: Rule): real {
    Score(aspect, RuleFeedback(alertTable, rule))
  }

  /** `rules[k]` is a ranked rule of `rules[..n]` with the highest score,
      and every ranked rule before it scores strictly less. */
  ghost predicate IsTop(rules: seq<Rule>, alertTable: seq<MetricAlert>, aspect: Aspect, k: nat, n: nat) {
    && k < n <= |rules|
    && Ranked(alertTable, rules[k])
    && (forall j :: 0 <= j < n && Ranked(alertTable, rules[j]) ==>
          RuleScore(alertTable, aspect, rules[j]) <= RuleScore(alertTable, aspect, rules[k]))
    && (forall j :: 0 <= j < k && Ranked(alertTable, rules[j]) ==>
          RuleScore(alertTable, aspect, rules[j]) < RuleScore(alertTable, aspect, rules[k]))
  }

  /** `_find_best_performing_rule(user_id)` for `Usefulness` and
      `_find_noisiest_rule(user_id)` for `Noise`: the running best starts
      at -1 and is replaced only by a strictly higher score, so the name
      returned is that of the first ranked rule with the highest score, and
      None when no rule of the user has three rated alerts. */
  method TopRule(ruleTable: seq<Rule>, alertTable: seq<MetricAlert>, userId: Id, aspect: Aspect)
    returns (name: Option<string>)
    ensures var rules := UserRules(ruleTable, userId);
            && (name.None? <==> forall i :: 0 <= i < |rules| ==> !Ranked(alertTable, rules[i]))
            && (name.Some? ==>
                  exists k :: 0 <= k < |rules| && IsTop(rules, alertTable, aspect, k, |rules|)
                              && rules[k].name == name.value)
  {
    var rules := UserRules(ruleTable, userId);
    name := None;
    var bestRate := -1.0;
    ghost var best: int := -1;
    for i := 0 to |rules|
      invariant name.None? <==> best == -1
      invariant best == -1 ==> bestRate == -1.0 && forall j :: 0 <= j < i ==> !Ranked(alertTable, rules[j])
      invariant best != -1 ==>
                  0 <= best && IsTop(rules, alertTable, aspect, best, i)
                  && name == Some(rules[best].name) && bestRate == RuleScore(alertTable, aspect, rules[best])
    {
      var alerts := RuleAlerts(alertTable, rules[i].id);
      var feedback := FeedbackBreakdownForAlerts(alerts);
      assert feedback == RuleFeedback(alertTable, rules[i]);
      if RatedCount(feedback) >= MinSampleSize {
        var rate := Score(aspect, feedback);
        if rate > bestRate {
          if best == -1 {
            TopFirst(rules, alertTable, aspect, i);
          } else {
            TopBeaten(rules, alertTable, aspect, best, i);
          }
          bestRate := rate;
          name := Some(rules[i].name);
          best := i;
        } else {
          TopKept(rules, alertTable, aspect, best, i);
        }
      } else if best != -1 {
        TopKept(rules, alertTable, aspect, best, i);
      }
    }
  }

  /** The first ranked rule is the best so far. */
  lemma TopFirst(rules: seq<Rule>, alertTable: seq<MetricAlert>, aspect: Aspect, i: nat)
    requires i < |rules| && Ranked(alertTable, rules[i])
    requires forall j :: 0 <= j < i ==> !Ranked(alertTable, rules[j])
    ensures IsTop(rules, alertTable, aspect, i, i + 1)
  {
  }

  /** A ranked rule scoring strictly more than the best so far replaces it. */
  lemma TopBeaten(rules: seq<Rule>, alertTable: seq<MetricAlert>, aspect: Aspect, best: nat, i: nat)
    requires i < |rules| && Ranked(alertTable, rules[i]) && IsTop(rules, alertTable, aspect, best, i)
    requires RuleScore(alertTable, aspect, rules[i]) > RuleScore(alertTable, aspect, rules[best])
    ensures IsTop(rules, alertTable, aspect, i, i + 1)
  {
  }

  /** A rule that is not ranked, or scores no more, leaves the best as it is. */
  lemma TopKept(rules: seq<Rule>, alertTable: seq<MetricAlert>, aspect: Aspect, best: nat, i: nat)
    requires i < |rules| && IsTop(rules, alertTable, aspect, best, i)
    requires Ranked(alertTable, rules[i]) ==>
               RuleScore(alertTable, aspect, rules[i]) <= RuleScore(alertTable, aspect, rules[best])
    ensures IsTop(rules, alertTable, aspect, best, i + 1)
  {
  }

  /** For a rule with rated alerts the noise score is what the usefulness
      score leaves of 100, so the noisiest rule is the least useful one. */
  lemma NoiseScoreComplement(b: FeedbackBreakdown)
    requires RatedCount(b) > 0
    ensures Score(Noise, b) == 100.0 - Score(Usefulness, b)
  {
    RatesComplement(b);
  }

  // ---------------------------------------------------------------------
  // Summary
  // ---------------------------------------------------------------------

  /** The rule entries with at least one rated alert, in list order. */
  function RatedRules(ms: seq<RuleMetrics>): (r: seq<RuleMetrics>)
    ensures forall i :: 0 <= i < |r| ==> UsefulnessRate(r[i].feedback).Some?
  {
    Filter((m: RuleMetrics) => RatedCount(m.feedback) > 0, ms)
  }

  /** `usefulness_rate or 0` */
  function UsefulnessOrZero(m: RuleMetrics): real {
    var u := UsefulnessRate(m.feedback);
    if u.Some? && u.value != 0.0 then u.value else 0.0
  }

  /** `usefulness_rate or 100`, as written: a rate of exactly 0 is falsy
      and so is keyed as 100 too. */
  function UsefulnessOr100(m: RuleMetrics): real {
    var u := UsefulnessRate(m.feedback);
    if u.Some? && u.value != 0.0 then u.value else 100.0
  }

  /** The key the noisiest-rule choice evidently means: the usefulness
      rate, 100 only when there is none. */
  function UsefulnessOrNone100(m: RuleMetrics): real {
    var u := UsefulnessRate(m.feedback);
    if u.Some? then u.value else 100.0
  }

  /** The summary's most useful rule: the first rated entry with the
      highest usefulness rate, None when no entry is rated. */
  function MostUsefulRule(ms: seq<RuleMetrics>): (r: Option<string>)
    ensures r.None? <==> RatedRules(ms) == []
    ensures r.Some? ==>
              exists k :: 0 <= k < |RatedRules(ms)| && RatedRules(ms)[k].ruleName == r.value
                          && forall j :: 0 <= j < |RatedRules(ms)| ==>
                               UsefulnessRate(RatedRules(ms)[j].feedback).value
                                 <= UsefulnessRate(RatedRules(ms)[k].feedback).value
  {
    var rated := RatedRules(ms);
    match FirstMaxBy(rated, UsefulnessOrZero)
    case None => None
    case Some(k) => Some(rated[k].ruleName)
  }

  /** The summary's noisiest rule as written: the first rated entry whose
      `usefulness_rate or 100` is lowest. */
  function NoisiestRuleAsWritten(ms: seq<RuleMetrics>): (r: Option<string>)
    ensures r.None? <==> RatedRules(ms) == []
    ensures r.Some? ==>
              var rated := RatedRules(ms);
              exists k :: 0 <= k < |rated| && rated[k].ruleName == r.value
                          && (forall j :: 0 <= j < |rated| ==> UsefulnessOr100(rated[k]) <= UsefulnessOr100(rated[j]))
                          && (forall j :: 0 <= j < k ==> UsefulnessOr100(rated[k]) < UsefulnessOr100(rated[j]))
  {
    var rated := RatedRules(ms);
    match FirstMinBy(rated, UsefulnessOr100)
    case None => None
    case Some(k) => Some(rated[k].ruleName)
  }

  /** The summary's noisiest rule as intended: the first rated entry with
      the lowest usefulness rate, None when no entry is rated. */
  function NoisiestRule(ms: seq<RuleMetrics>): (r: Option<string>)
    ensures r.None? <==> RatedRules(ms) == []
    ensures r.Some? ==>
              exists k :: 0 <= k < |RatedRules(ms)| && RatedRules(ms)[k].ruleName == r.value
                          && forall j :: 0 <= j < |RatedRules(ms)| ==>
                               UsefulnessRate(RatedRules(ms)[j].feedback).value
                                 >= UsefulnessRate(RatedRules(ms)[k].feedback).value
  {
    var rated := RatedRules(ms);
    match FirstMinBy(rated, UsefulnessOrNone100)
    case None => None
    case Some(k) => Some(rated[k].ruleName)
  }

  /** The two keys agree on every list of rated entries, so the two choices
      differ only when some rated rule is exactly 0% useful. */
  lemma NoisiestAgreesWithoutZeroRate(ms: seq<RuleMetrics>)
    requires forall i :: 0 <= i < |RatedRules(ms)| ==> UsefulnessRate(RatedRules(ms)[i].feedback).value != 0.0
    ensures NoisiestRuleAsWritten(ms) == NoisiestRule(ms)
  {
  }

  /** A rule entry with the given feedback and nothing else of note. */
  function SampleRule(id: Id, name: string, b: FeedbackBreakdown): RuleMetrics {
    RuleMetrics(id, name, "price_below_value", None, true, b.total, 0, 0, b,
                PriceMovement(None, None, None, None, None, None), None, 0.0)
  }

  /** The smaller of two, the first on a tie. */
  lemma FirstMinByPair<T>(x: T, y: T, key: T -> real)
    ensures FirstMinBy([x, y], key) == if key(y) < key(x) then Some(1) else Some(0)
  {
    assert [x, y][..1] == [x];
    assert [x][..0] == [];
  }

  /** Rule A has all four ratings marked noise (0% useful), rule B half of
      them (50% useful).  As written the zero rate is keyed as 100, so B is
      named the noisiest; the intended key names A. */
  lemma NoisiestZeroRateMissed()
    ensures var ms := [SampleRule(1, "A", FeedbackBreakdown(4, 0, 4, 0, 0)),
                       SampleRule(2, "B", FeedbackBreakdown(4, 2, 2, 0, 0))];
            NoisiestRuleAsWritten(ms) == Some("B") && NoisiestRule(ms) == Some("A")
  {
    var a := SampleRule(1, "A", FeedbackBreakdown(4, 0, 4, 0, 0));
    var b := SampleRule(2, "B", FeedbackBreakdown(4, 2, 2, 0, 0));
    assert UsefulnessRate(a.feedback) == Some(0.0);
    assert UsefulnessRate(b.feedback) == Some(50.0);
    var rated := (m: RuleMetrics) => RatedCount(m.feedback) > 0;
    assert rated(a) && rated(b);
    assert [a, b][1..] == [b] && [b][1..] == [];
    assert Filter(rated, [b]) == [b];
    assert RatedRules([a, b]) == [a, b];
    assert UsefulnessOr100(a) == 100.0 && UsefulnessOr100(b) == 50.0;
    assert UsefulnessOrNone100(a) == 0.0 && UsefulnessOrNone100(b) == 50.0;
    FirstMinByPair(a, b, UsefulnessOr100);
    FirstMinByPair(a, b, UsefulnessOrNone100);
  }

  /** The summary's most signalled asset: the first entry with the most
      alerts, None when there is no entry. */
  function MostSignalsAsset(assets: seq<AssetMetrics>): (r: Option<string>)
    ensures r.None? <==> assets == []
    ensures r.Some? ==>
              exists k :: 0 <= k < |assets| && assets[k].symbol == r.value
                          && forall j :: 0 <= j < |assets| ==> assets[j].totalAlerts <= assets[k].totalAlerts
  {
    match FirstMaxBy(assets, AssetTotalKey)
    case None => None
    case Some(k) => Some(assets[k].symbol)
  }

  /** On a list sorted by alert count, most first, the most signalled
      asset is the head. */
  lemma MostSignalsIsHead(assets: seq<AssetMetrics>)
    requires assets != []
    requires forall i, j :: 0 <= i < j < |assets| ==> assets[i].totalAlerts >= assets[j].totalAlerts
    ensures MostSignalsAsset(assets) == Some(assets[0].symbol)
  {
  }

  /** The highlights of `get_summary`. */
  datatype Highlights = Highlights(
    totalAlertsInPeriod: nat,
    overallUsefulnessRate: Option<real>,
    mostUsefulRule: Option<string>,
    noisiestRule: Option<string>,
    mostSignalsAsset: Option<string>)

  /** The highlights computed from the rule and asset entries and the
      user's alerts: the alerts in the period, the usefulness over all the
      user's alerts, the most useful and the noisiest rated rule (the
      latter with the `usefulness_rate or 100` key as written), and the
      most signalled asset. */
  function HighlightsOf(ruleMetrics: seq<RuleMetrics>, assetMetrics: seq<AssetMetrics>,
                        alertTable: seq<MetricAlert>, userId: Id, now: int, periodDays: int): (h: Highlights)
    ensures h.totalAlertsInPeriod <= |UserAlerts(alertTable, userId)|
    ensures h.overallUsefulnessRate.None? <==> RatedCount(Breakdown(UserAlerts(alertTable, userId))) == 0
    ensures h.mostUsefulRule.None? <==> h.noisiestRule.None?
    ensures h.mostUsefulRule.None? <==> forall i :: 0 <= i < |ruleMetrics| ==> RatedCount(ruleMetrics[i].feedback) == 0
    ensures h.mostSignalsAsset.None? <==> assetMetrics == []
  {
    var alerts := UserAlerts(alertTable, userId);
    assert (forall i :: 0 <= i < |ruleMetrics| ==> RatedCount(ruleMetrics[i].feedback) == 0)
           <==> RatedRules(ruleMetrics) == [] by {
      FilterEmpty((m: RuleMetrics) => RatedCount(m.feedback) > 0, ruleMetrics);
    }
    Highlights(CountSince(alerts, PeriodStart(now, periodDays)), UsefulnessRate(Breakdown(alerts)),
               MostUsefulRule(ruleMetrics), NoisiestRuleAsWritten(ruleMetrics), MostSignalsAsset(assetMetrics))
  }

  /** `MetricsSummary`; per-user totals other than the overall usefulness
      rate are not part of this model. */
  datatype MetricsSummary = MetricsSummary(
    periodDays: int,
    generatedAt: int,
    ruleMetrics: seq<RuleMetrics>,
    assetMetrics: seq<AssetMetrics>,
    highlights: Highlights)

  /** `get_summary(user_id, period_days)` at time `now`: the sorted rule
      and asset entries, and the highlights drawn from them. */
  method GetSummary(ruleTable: seq<Rule>, alertTable: seq<MetricAlert>, userId: Id, now: int, periodDays: int)
    returns (s: MetricsSummary)
    ensures s.periodDays == periodDays && s.generatedAt == now
    ensures s.ruleMetrics == SortBy(RuleTotalKey, RuleMetricsList(UserRules(ruleTable, userId), alertTable, now, periodDays))
    ensures s.assetMetrics == SortBy(AssetTotalKey, AssetMetricsList(SymbolsOf(UserAlerts(alertTable, userId)),
                                                                      ruleTable, alertTable, userId, now, periodDays))
    ensures s.highlights == HighlightsOf(s.ruleMetrics, s.assetMetrics, alertTable, userId, now, periodDays)
    ensures s.highlights.mostSignalsAsset.Some? ==> s.highlights.mostSignalsAsset.value == s.assetMetrics[0].symbol
  {
    var rules := GetRuleMetrics(ruleTable, alertTable, userId, now, periodDays);
    var assets := GetAssetMetrics(ruleTable, alertTable, userId, now, periodDays);
    var h := HighlightsOf(rules, assets, alertTable, userId, now, periodDays);
    if assets != [] {
      MostSignalsIsHead(assets);
    }
    s := MetricsSummary(periodDays, now, rules, assets, h);
  }
}
