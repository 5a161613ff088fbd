/** The rules table and its repository: queries by user, id and name,
    creation with defaults, partial update, deletion and the
    last-triggered stamp.  Row ids are handed out from a counter. */
module RuleStore {
  import opened Common
  import opened Evaluators
  import opened Records

  /** The `cooldown_minutes` default of `create`. */
  const DefaultCooldownMinutes: int := 60

  /** `get_all(user_id)`: the user's rules, in table order. */
  function UserRules(table: seq<Rule>, userId: Id): seq<Rule> {
    Filter((r: Rule) => r.userId == userId, table)
  }

  /** `get_active(user_id)`: the user's enabled rules, in table order. */
  function ActiveRules(table: seq<Rule>, userId: Id): seq<Rule> {
    if table == [] then []
    else
      var head := if table[0].userId == userId && table[0].enabled then [table[0]] else [];
      head + ActiveRules(table[1..], userId)
  }

  /** The query returns exactly the user's enabled rules. */
  lemma {:induction false} ActiveRulesMembers(table: seq<Rule>, userId: Id)
    ensures forall x :: x in ActiveRules(table, userId) <==> x in table && x.userId == userId && x.enabled
  {
    if table != [] {
      ActiveRulesMembers(table[1..], userId);
      assert table == [table[0]] + table[1..];
    }
  }

  /** The active rules are exactly the enabled ones among all the user's
      rules. */
  lemma ActiveSubset(table: seq<Rule>, userId: Id)
    ensures forall x :: x in ActiveRules(table, userId) <==> x in UserRules(table, userId) && x.enabled
    ensures forall x :: x in UserRules(table, userId) <==> x in table && x.userId == userId
  {
    ActiveRulesMembers(table, userId);
    forall x ensures x in UserRules(table, userId) <==> x in table && x.userId == userId {
      FilterMembers((r: Rule) => r.userId == userId, table, x);
    }
  }

  /** `get_by_id(rule_id)` */
  function FindRule(rows: seq<Rule>, id: Id): (r: Option<Rule>)
    ensures r.Some? ==> r.value in rows && r.value.id == id
    ensures r.None? <==> forall i :: 0 <= i < |rows| ==> rows[i].id != id
  {
    match FirstIndex((x: Rule) => x.id == id, rows)
    case Some(i) => Some(rows[i])
    case None => None
  }

  /** `get_by_name(name, user_id)`: an exact match on owner and name. */
  function RuleByName(rows: seq<Rule>, name: string, userId: Id): (r: Option<Rule>)
    ensures r.Some? ==> r.value in rows && r.value.userId == userId && r.value.name == name
    ensures r.None? <==> forall i :: 0 <= i < |rows| ==> !(rows[i].userId == userId && rows[i].name == name)
  {
    match FirstIndex((x: Rule) => x.userId == userId && x.name == name, rows)
    case Some(i) => Some(rows[i])
    case None => None
  }

  /** The scope `update` stores for a `symbol` argument: `None` keeps the
      scope, the empty string clears it, anything else is upper-cased. */
  function NewScope(current: Option<string>, symbol: Option<string>): Option<string> {
    match symbol
    case None => current
    case Some(s) => if s == "" then None else Some(Upper(s))
  }

  /** The rule with the given fields replaced (`None` keeps a field). */
  function RuleUpdated(rule: Rule, name: Option<string>, threshold: Option<real>, symbol: Option<string>,
                       enabled: Option<bool>, cooldownMinutes: Option<int>): Rule
  {
    rule.(name := name.GetOr(rule.name),
          threshold := threshold.GetOr(rule.threshold),
          symbol := NewScope(rule.symbol, symbol),
          enabled := enabled.GetOr(rule.enabled),
          cooldownMinutes := cooldownMinutes.GetOr(rule.cooldownMinutes))
  }

  /** An update keeps the rule's identity, owner, type and trigger stamp,
      sets exactly the given fields, and an empty symbol unscopes the
      rule. */
  lemma RuleUpdatedFields(rule: Rule, name: Option<string>, threshold: Option<real>, symbol: Option<string>,
                          enabled: Option<bool>, cooldownMinutes: Option<int>)
    ensures var u := RuleUpdated(rule, name, threshold, symbol, enabled, cooldownMinutes);
      u.id == rule.id && u.userId == rule.userId && u.ruleType == rule.ruleType
      && u.lastTriggeredAt == rule.lastTriggeredAt
      && (name.Some? ==> u.name == name.value) && (name.None? ==> u.name == rule.name)
      && (threshold.Some? ==> u.threshold == threshold.value) && (threshold.None? ==> u.threshold == rule.threshold)
      && (enabled.Some? ==> u.enabled == enabled.value) && (enabled.None? ==> u.enabled == rule.enabled)
      && (cooldownMinutes.Some? ==> u.cooldownMinutes == cooldownMinutes.value)
      && (cooldownMinutes.None? ==> u.cooldownMinutes == rule.cooldownMinutes)
      && (symbol == Some("") ==> u.symbol.None?)
      && (symbol.Some? && symbol.value != "" ==> u.symbol == Some(Upper(symbol.value)))
      && (symbol.None? ==> u.symbol == rule.symbol)
    ensures RuleUpdated(rule, None, None, None, None, None) == rule
  {
  }

  /** `RuleRepository` over its table. */
  class RuleRepository {
    var rows: seq<Rule>
    var nextId: nat

    ghost predicate Valid()
      reads this
    {
      TableValid((x: Rule) => x.id, rows, nextId)
    }

    constructor()
      ensures Valid() && rows == [] && nextId == 0
    {
      rows := [];
      nextId := 0;
    }

    /** `create(...)`: stores the type's tag and the upper-cased symbol; the
        rule has never triggered. */
    method Create(name: string, ruleType: RuleType, threshold: real, symbol: Option<string>,
                  enabled: bool, cooldownMinutes: int, userId: Id) returns (rule: Rule)
      requires Valid()
      modifies this
      ensures Valid()
      ensures rule == Rule(old(nextId), userId, name, Tag(ruleType), threshold,
                           if symbol.Some? then Some(Upper(symbol.value)) else None,
                           enabled, cooldownMinutes, None)
      ensures rows == old(rows) + [rule] && nextId == old(nextId) + 1
    {
      var scope := if symbol.Some? then Some(Upper(symbol.value)) else None;
      rule := Rule(nextId, userId, name, Tag(ruleType), threshold, scope, enabled, cooldownMinutes, None);
      AppendValid((x: Rule) => x.id, rows, nextId, rule);
      rows := rows + [rule];
      nextId := nextId + 1;
    }

    /** `update(...)`: `None` for an unknown id; otherwise the rule with the
        given fields replaced, and nothing else changed. */
    method Update(id: Id, name: Option<string>, threshold: Option<real>, symbol: Option<string>,
                  enabled: Option<bool>, cooldownMinutes: Option<int>) returns (r: Option<Rule>)
      requires Valid()
      modifies this
      ensures Valid() && nextId == old(nextId) && |rows| == |old(rows)|
      ensures r.None? <==> FindRule(old(rows), id).None?
      ensures r.Some? ==>
                r.value == RuleUpdated(FindRule(old(rows), id).value, name, threshold, symbol, enabled, cooldownMinutes)
      ensures forall i :: 0 <= i < |rows| ==>
                rows[i] == if old(rows)[i].id == id
                           then RuleUpdated(old(rows)[i], name, threshold, symbol, enabled, cooldownMinutes)
                           else old(rows)[i]
    {
      var i := FirstIndex((x: Rule) => x.id == id, rows);
      if i.None? {
        return None;
      }
      var k := i.value;
      var rule := RuleUpdated(rows[k], name, threshold, symbol, enabled, cooldownMinutes);
      ReplaceValid((x: Rule) => x.id, rows, nextId, k, rule);
      rows := rows[k := rule];
      r := Some(rule);
    }

    /** `delete(rule_id)`: true iff the rule existed; afterwards it is gone
        and every other rule is kept. */
    method Delete(id: Id) returns (deleted: bool)
      requires Valid()
      modifies this
      ensures Valid() && nextId == old(nextId)
      ensures deleted <==> FindRule(old(rows), id).Some?
      ensures FindRule(rows, id).None?
      ensures forall x :: x in rows <==> x in old(rows) && x.id != id
    {
      var i := FirstIndex((x: Rule) => x.id == id, rows);
      if i.None? {
        return false;
      }
      RemoveValid((x: Rule) => x.id, rows, nextId, i.value);
      rows := RemoveAt(rows, i.value);
      deleted := true;
    }

    /** `delete_by_name(name, user_id)`: true iff the user had a rule of that
        name; exactly the rule `get_by_name` finds is removed. */
    method DeleteByName(name: string, userId: Id) returns (deleted: bool)
      requires Valid()
      modifies this
      ensures Valid() && nextId == old(nextId)
      ensures deleted <==> RuleByName(old(rows), name, userId).Some?
      ensures !deleted ==> rows == old(rows)
      ensures deleted ==> FindRule(rows, RuleByName(old(rows), name, userId).value.id).None?
      ensures deleted ==> forall x :: x in rows <==> x in old(rows) && x.id != RuleByName(old(rows), name, userId).value.id
    {
      var i := FirstIndex((x: Rule) => x.userId == userId && x.name == name, rows);
      if i.None? {
        return false;
      }
      RemoveValid((x: Rule) => x.id, rows, nextId, i.value);
      rows := RemoveAt(rows, i.value);
      deleted := true;
    }

    /** `update_last_triggered(rule_id)`: stamps the rule with `now`; an
        unknown id changes nothing. */
    method UpdateLastTriggered(id: Id, now: int)
      requires Valid()
      modifies this
      ensures Valid() && nextId == old(nextId) && |rows| == |old(rows)|
      ensures forall i :: 0 <= i < |rows| ==>
                rows[i] == if old(rows)[i].id == id then old(rows)[i].(lastTriggeredAt := Some(now)) else old(rows)[i]
    {
      var i := FirstIndex((x: Rule) => x.id == id, rows);
      if i.Some? {
        var k := i.value;
        ReplaceValid((x: Rule) => x.id, rows, nextId, k, rows[k].(lastTriggeredAt := Some(now)));
        rows := rows[k := rows[k].(lastTriggeredAt := Some(now))];
      }
    }
  }
}
