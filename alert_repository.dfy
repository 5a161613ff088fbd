/** The alerts table and its repository: creation, newest-first listings,
    the notified flag, the AI summary, deletion and clearing a user's
    alerts.  Row ids are handed out from a counter. */
module AlertStore {
  import opened Common
  import opened Sorting
  import opened Records

  /** The `limit` defaults of `get_recent`, `get_by_symbol` and `get_by_rule`. */
  const RecentLimit: nat := 50
  const SymbolLimit: nat := 20
  const RuleLimit: nat := 20

  /** `order_by(Alert.triggered_at.desc())` sorts on the trigger time. */
  function TriggeredKey(a: Alert): real {
    a.triggeredAt as real
  }

  /** The matching alerts, newest first, at most `limit` of them.  Alerts
      with the same trigger time keep their table order. */
  function Newest(rows: seq<Alert>, p: Alert -> bool, limit: nat): (r: seq<Alert>)
    ensures |r| <= limit
    ensures forall i :: 0 <= i < |r| ==> p(r[i]) && r[i] in rows
    ensures forall i, j :: 0 <= i < j < |r| ==> r[i].triggeredAt >= r[j].triggeredAt
  {
    NewestFacts(rows, p);
    Take(SortBy(TriggeredKey, Filter(p, rows)), limit)
  }

  lemma NewestFacts(rows: seq<Alert>, p: Alert -> bool)
    ensures var s := SortBy(TriggeredKey, Filter(p, rows));
      (forall i :: 0 <= i < |s| ==> p(s[i]) && s[i] in rows)
      && (forall i, j :: 0 <= i < j < |s| ==> s[i].triggeredAt >= s[j].triggeredAt)
      && multiset(s) == multiset(Filter(p, rows))
  {
    var m := Filter(p, rows);
    var s := SortBy(TriggeredKey, m);
    SortByPermutes(TriggeredKey, m);
    SortBySorted(TriggeredKey, m);
    forall i | 0 <= i < |s| ensures p(s[i]) && s[i] in rows {
      assert s[i] in multiset(m);
      FilterMembers(p, rows, s[i]);
    }
  }

  /** Nothing is left out of a listing but alerts no newer than every
      listed one, and when at most `limit` alerts match, all of them are
      listed. */
  lemma NewestComplete(rows: seq<Alert>, p: Alert -> bool, limit: nat)
    ensures |Newest(rows, p, limit)| == if |Filter(p, rows)| <= limit then |Filter(p, rows)| else limit
    ensures |Filter(p, rows)| <= limit ==> multiset(Newest(rows, p, limit)) == multiset(Filter(p, rows))
    ensures forall x :: x in rows && p(x) && x !in Newest(rows, p, limit) ==>
              forall i :: 0 <= i < |Newest(rows, p, limit)| ==> Newest(rows, p, limit)[i].triggeredAt >= x.triggeredAt
  {
    var m := Filter(p, rows);
    var s := SortBy(TriggeredKey, m);
    NewestFacts(rows, p);
    forall x | x in rows && p(x) && x !in Newest(rows, p, limit)
      ensures forall i :: 0 <= i < |Newest(rows, p, limit)| ==> Newest(rows, p, limit)[i].triggeredAt >= x.triggeredAt
    {
      FilterMembers(p, rows, x);
      assert x in multiset(s);
      PrefixNewer(s, x, limit);
    }
  }

  /** In a newest-first sequence, an element outside a prefix is no newer
      than anything in it. */
  lemma PrefixNewer(s: seq<Alert>, x: Alert, limit: nat)
    requires forall i, j :: 0 <= i < j < |s| ==> s[i].triggeredAt >= s[j].triggeredAt
    requires x in s && x !in Take(s, limit)
    ensures forall i :: 0 <= i < |Take(s, limit)| ==> Take(s, limit)[i].triggeredAt >= x.triggeredAt
  {
    var k :| 0 <= k < |s| && s[k] == x;
    var r := Take(s, limit);
    assert forall i :: 0 <= i < |r| ==> r[i] == s[i];
  }

  /** `get_recent(user_id, limit)` */
  function Recent(rows: seq<Alert>, userId: Id, limit: nat): (r: seq<Alert>)
    ensures |r| <= limit
    ensures forall i :: 0 <= i < |r| ==> r[i] in rows && r[i].userId == userId
    ensures forall i, j :: 0 <= i < j < |r| ==> r[i].triggeredAt >= r[j].triggeredAt
  {
    Newest(rows, (a: Alert) => a.userId == userId, limit)
  }

  /** `get_by_symbol(symbol, user_id, limit)`: the symbol is upper-cased. */
  function BySymbol(rows: seq<Alert>, symbol: string, userId: Id, limit: nat): (r: seq<Alert>)
    ensures |r| <= limit
    ensures forall i :: 0 <= i < |r| ==> r[i] in rows && r[i].userId == userId && r[i].symbol == Upper(symbol)
    ensures forall i, j :: 0 <= i < j < |r| ==> r[i].triggeredAt >= r[j].triggeredAt
  {
    Newest(rows, (a: Alert) => a.userId == userId && a.symbol == Upper(symbol), limit)
  }

  /** `get_by_rule(rule_id, limit)`: every user's alerts of that rule. */
  function ByRule(rows: seq<Alert>, ruleId: Id, limit: nat): (r: seq<Alert>)
    ensures |r| <= limit
    ensures forall i :: 0 <= i < |r| ==> r[i] in rows && r[i].ruleId == ruleId
    ensures forall i, j :: 0 <= i < j < |r| ==> r[i].triggeredAt >= r[j].triggeredAt
  {
    Newest(rows, (a: Alert) => a.ruleId == ruleId, limit)
  }

  /** `get_by_id(alert_id)` */
  function FindAlert(rows: seq<Alert>, id: Id): (r: Option<Alert>)
    ensures r.Some? ==> r.value in rows && r.value.id == id
    ensures r.None? <==> forall i :: 0 <= i < |rows| ==> rows[i].id != id
  {
    match FirstIndex((a: Alert) => a.id == id, rows)
    case Some(i) => Some(rows[i])
    case None => None
  }

  /** `AlertRepository` over its table. */
  class AlertRepository {
    var rows: seq<Alert>
    var nextId: nat

    ghost predicate Valid()
      reads this
    {
      TableValid((a: Alert) => a.id, rows, nextId)
    }

    constructor()
      ensures Valid() && rows == [] && nextId == 0
    {
      rows := [];
      nextId := 0;
    }

    /** `create(...)` at time `now`: the symbol is upper-cased and the alert
        starts out not notified. */
    method Create(userId: Id, ruleId: Id, symbol: string, message: string, holdingId: Option<Id>,
                  aiSummary: Option<string>, now: int) returns (a: Alert)
      requires Valid()
      modifies this
      ensures Valid()
      ensures a == Alert(old(nextId), userId, ruleId, holdingId, Upper(symbol), message, aiSummary, now, false)
      ensures rows == old(rows) + [a] && nextId == old(nextId) + 1
    {
      a := Alert(nextId, userId, ruleId, holdingId, Upper(symbol), message, aiSummary, now, false);
      AppendValid((a: Alert) => a.id, rows, nextId, a);
      rows := rows + [a];
      nextId := nextId + 1;
    }

    /** `mark_notified(alert_id)`: false and no change for an unknown id;
        otherwise only that alert's flag is set. */
    method MarkNotified(id: Id) returns (found: bool)
      requires Valid()
      modifies this
      ensures Valid() && nextId == old(nextId) && |rows| == |old(rows)|
      ensures found <==> FindAlert(old(rows), id).Some?
      ensures forall i :: 0 <= i < |rows| ==>
                rows[i] == if old(rows)[i].id == id then old(rows)[i].(notified := true) else old(rows)[i]
    {
      var i := FirstIndex((a: Alert) => a.id == id, rows);
      if i.None? {
        return false;
      }
      var k := i.value;
      ReplaceValid((a: Alert) => a.id, rows, nextId, k, rows[k].(notified := true));
      rows := rows[k := rows[k].(notified := true)];
      found := true;
    }

    /** `update_ai_summary(alert_id, ai_summary)`: false and no change for an
        unknown id; otherwise only that alert's summary is replaced. */
    method UpdateAiSummary(id: Id, summary: string) returns (found: bool)
      requires Valid()
      modifies this
      ensures Valid() && nextId == old(nextId) && |rows| == |old(rows)|
      ensures found <==> FindAlert(old(rows), id).Some?
      ensures forall i :: 0 <= i < |rows| ==>
                rows[i] == if old(rows)[i].id == id then old(rows)[i].(aiSummary := Some(summary)) else old(rows)[i]
    {
      var i := FirstIndex((a: Alert) => a.id == id, rows);
      if i.None? {
        return false;
      }
      var k := i.value;
      ReplaceValid((a: Alert) => a.id, rows, nextId, k, rows[k].(aiSummary := Some(summary)));
      rows := rows[k := rows[k].(aiSummary := Some(summary))];
      found := true;
    }

    /** `delete(alert_id)`: true iff the alert existed; only it is removed. */
    method Delete(id: Id) returns (deleted: bool)
      requires Valid()
      modifies this
      ensures Valid() && nextId == old(nextId)
      ensures deleted <==> FindAlert(old(rows), id).Some?
      ensures |rows| == if deleted then |old(rows)| - 1 else |old(rows)|
      ensures forall x :: x in rows <==> x in old(rows) && x.id != id
    {
      var i := FirstIndex((a: Alert) => a.id == id, rows);
      if i.None? {
        return false;
      }
      RemoveValid((a: Alert) => a.id, rows, nextId, i.value);
      rows := RemoveAt(rows, i.value);
      deleted := true;
    }

    /** `clear_all(user_id)`: removes exactly the user's alerts and returns
        how many there were. */
    method ClearAll(userId: Id) returns (count: nat)
      requires Valid()
      modifies this
      ensures Valid() && nextId == old(nextId)
      ensures count == |Filter((a: Alert) => a.userId == userId, old(rows))|
      ensures count == |old(rows)| - |rows|
      ensures forall x :: x in rows <==> x in old(rows) && x.userId != userId
    {
      var keep := (a: Alert) => a.userId != userId;
      var mine := (a: Alert) => a.userId == userId;
      FilterSplit(mine, keep, rows);
      FilterValid((a: Alert) => a.id, keep, rows, nextId);
      forall x ensures x in Filter(keep, rows) <==> x in rows && x.userId != userId {
        FilterMembers(keep, rows, x);
      }
      count := |Filter(mine, rows)|;
      rows := Filter(keep, rows);
    }
  }
}
