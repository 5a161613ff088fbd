/** The rule and asset leaderboards: the entries with enough rated alerts,
    ordered by usefulness rate (None counting as 0), most useful first,
    and numbered from 1 in that order.  Rounding of the printed rates is
    not modelled. */
module Leaderboard {
  import opened Common
  import opened Sorting
  import opened Records
  import opened MetricsModels
  import opened Metrics

  /** The `min_ratings` defaults of the two routes. */
  const DefaultRuleMinRatings: nat := 3
  const DefaultAssetMinRatings: nat := 2

  /** `rate or 0` */
  function OrZero(r: Option<real>): (v: real)
    ensures r.Some? ==> v == r.value
    ensures r.None? ==> v == 0.0
  {
    if r.Some? && r.value != 0.0 then r.value else 0.0
  }

  /** An entry of a leaderboard and its rank. */
  datatype Placed<T> = Placed(rank: nat, item: T)

  function PlacedItems<T>(b: seq<Placed<T>>): (r: seq<T>)
    ensures |r| == |b| && forall i :: 0 <= i < |b| ==> r[i] == b[i].item
  {
    if b == [] then [] else PlacedItems(b[..|b| - 1]) + [b[|b| - 1].item]
  }

  /** Keeps the entries with at least `minRatings` rated alerts. */
  function Qualifying<T>(rated: T -> nat, minRatings: nat): T -> bool {
    (m: T) => rated(m) >= minRatings
  }

  /** Numbers a list from 1, in order. */
  function Rank<T>(s: seq<T>): (b: seq<Placed<T>>)
    ensures |b| == |s| && forall i :: 0 <= i < |s| ==> b[i] == Placed(i + 1, s[i])
    ensures PlacedItems(b) == s
  {
    var b := seq(|s|, i requires 0 <= i < |s| => Placed(i + 1, s[i]));
    assert PlacedItems(b) == s;
    b
  }

  /** Both leaderboard routes: filter by the rating count, sort by `key`
      descending (a stable sort), then number from 1. */
  function Board<T>(key: T -> real, rated: T -> nat, ms: seq<T>, minRatings: nat): seq<Placed<T>> {
    Rank(SortBy(key, Filter(Qualifying(rated, minRatings), ms)))
  }

  /** The board holds exactly the qualifying entries, each as often as in
      the input. */
  lemma BoardContents<T>(key: T -> real, rated: T -> nat, ms: seq<T>, minRatings: nat)
    ensures var b := Board(key, rated, ms, minRatings);
            && |b| == |Filter(Qualifying(rated, minRatings), ms)|
            && multiset(PlacedItems(b)) == multiset(Filter(Qualifying(rated, minRatings), ms))
            && (forall i :: 0 <= i < |b| ==> rated(b[i].item) >= minRatings)
  {
    var qualified := Filter(Qualifying(rated, minRatings), ms);
    var sorted := SortBy(key, qualified);
    SortByPermutes(key, qualified);
    forall i | 0 <= i < |sorted| ensures rated(sorted[i]) >= minRatings {
      assert sorted[i] in multiset(qualified);
      assert Qualifying(rated, minRatings)(sorted[i]);
    }
  }

  /** The board is ranked 1 to n in non-increasing key order. */
  lemma BoardOrdered<T>(key: T -> real, rated: T -> nat, ms: seq<T>, minRatings: nat)
    ensures var b := Board(key, rated, ms, minRatings);
            && (forall i :: 0 <= i < |b| ==> b[i].rank == i + 1)
            && (forall i, j :: 0 <= i < j < |b| ==> key(b[i].item) >= key(b[j].item))
  {
    SortBySorted(key, Filter(Qualifying(rated, minRatings), ms));
  }

  /** An entry is on the board exactly when it is one of the inputs with
      enough ratings. */
  lemma BoardMembers<T>(key: T -> real, rated: T -> nat, ms: seq<T>, minRatings: nat, m: T)
    ensures (exists i :: 0 <= i < |Board(key, rated, ms, minRatings)| && Board(key, rated, ms, minRatings)[i].item == m)
            <==> m in ms && rated(m) >= minRatings
  {
    var b := Board(key, rated, ms, minRatings);
    var q := Qualifying(rated, minRatings);
    BoardContents(key, rated, ms, minRatings);
    FilterMembers(q, ms, m);
    assert m in PlacedItems(b) <==> m in multiset(Filter(q, ms));
    if m in PlacedItems(b) {
      var i :| 0 <= i < |PlacedItems(b)| && PlacedItems(b)[i] == m;
      assert b[i].item == m;
    }
  }

  /** Entries with the same key keep their input order on the board. */
  lemma BoardStable<T>(key: T -> real, rated: T -> nat, ms: seq<T>, minRatings: nat, k: real, p: T -> bool)
    requires forall x :: p(x) <==> key(x) == k
    ensures Filter(p, PlacedItems(Board(key, rated, ms, minRatings))) == Filter(p, Filter(Qualifying(rated, minRatings), ms))
  {
    var qualified := Filter(Qualifying(rated, minRatings), ms);
    SortByStable(key, qualified, k, p);
  }

  function RuleKey(m: RuleMetrics): real { OrZero(UsefulnessRate(m.feedback)) }
  function RuleRated(m: RuleMetrics): nat { RatedCount(m.feedback) }
  function AssetKey(m: AssetMetrics): real { OrZero(UsefulnessRate(m.feedback)) }
  function AssetRated(m: AssetMetrics): nat { RatedCount(m.feedback) }

  /** A row of the rules leaderboard. */
  datatype RuleRow = RuleRow(rank: nat, ruleId: Id, ruleName: string, ruleType: string,
                             totalAlerts: nat, ratedAlerts: nat, usefulnessRate: real, noiseRate: real)

  /** A row of the assets leaderboard. */
  datatype AssetRow = AssetRow(rank: nat, symbol: string, totalAlerts: nat, ratedAlerts: nat,
                               usefulnessRate: real, avg7dChange: real)

  function RuleRowOf(e: Placed<RuleMetrics>): (r: RuleRow)
    ensures r.rank == e.rank && r.ratedAlerts == RuleRated(e.item) && r.usefulnessRate == RuleKey(e.item)
    ensures 0.0 <= r.usefulnessRate <= 100.0 && 0.0 <= r.noiseRate <= 100.0
  {
    var m := e.item;
    RuleRow(e.rank, m.ruleId, m.ruleName, m.ruleType, m.totalAlerts, RatedCount(m.feedback),
            OrZero(UsefulnessRate(m.feedback)), OrZero(NoiseRate(m.feedback)))
  }

  function AssetRowOf(e: Placed<AssetMetrics>): (r: AssetRow)
    ensures r.rank == e.rank && r.ratedAlerts == AssetRated(e.item) && r.usefulnessRate == AssetKey(e.item)
    ensures 0.0 <= r.usefulnessRate <= 100.0
  {
    var m := e.item;
    AssetRow(e.rank, m.symbol, m.totalAlerts, RatedCount(m.feedback),
             OrZero(UsefulnessRate(m.feedback)), OrZero(m.priceMovement.avg7dChangePct))
  }

  /** `get_rules_leaderboard` over the rule metrics list. */
  function RulesLeaderboard(ms: seq<RuleMetrics>, minRatings: nat): seq<RuleRow> {
    var b := Board(RuleKey, RuleRated, ms, minRatings);
    seq(|b|, i requires 0 <= i < |b| => RuleRowOf(b[i]))
  }

  /** One row per rule with at least `minRatings` rated alerts, ranked 1
      to n, usefulness rates within 0 to 100 and non-increasing down the
      board. */
  lemma RulesLeaderboardSpec(ms: seq<RuleMetrics>, minRatings: nat)
    ensures var rows := RulesLeaderboard(ms, minRatings);
            && |rows| == |Filter(Qualifying(RuleRated, minRatings), ms)|
            && (forall i :: 0 <= i < |rows| ==>
                  rows[i].rank == i + 1 && rows[i].ratedAlerts >= minRatings
                  && 0.0 <= rows[i].usefulnessRate <= 100.0 && 0.0 <= rows[i].noiseRate <= 100.0)
            && (forall i, j :: 0 <= i < j < |rows| ==> rows[i].usefulnessRate >= rows[j].usefulnessRate)
  {
    BoardContents(RuleKey, RuleRated, ms, minRatings);
    BoardOrdered(RuleKey, RuleRated, ms, minRatings);
  }

  /** `get_assets_leaderboard` over the asset metrics list. */
  function AssetsLeaderboard(ms: seq<AssetMetrics>, minRatings: nat): seq<AssetRow> {
    var b := Board(AssetKey, AssetRated, ms, minRatings);
    seq(|b|, i requires 0 <= i < |b| => AssetRowOf(b[i]))
  }

  /** One row per asset with at least `minRatings` rated alerts, ranked 1
      to n, usefulness rates within 0 to 100 and non-increasing down the
      board. */
  lemma AssetsLeaderboardSpec(ms: seq<AssetMetrics>, minRatings: nat)
    ensures var rows := AssetsLeaderboard(ms, minRatings);
            && |rows| == |Filter(Qualifying(AssetRated, minRatings), ms)|
            && (forall i :: 0 <= i < |rows| ==>
                  rows[i].rank == i + 1 && rows[i].ratedAlerts >= minRatings
                  && 0.0 <= rows[i].usefulnessRate <= 100.0)
            && (forall i, j :: 0 <= i < j < |rows| ==> rows[i].usefulnessRate >= rows[j].usefulnessRate)
  {
    BoardContents(AssetKey, AssetRated, ms, minRatings);
    BoardOrdered(AssetKey, AssetRated, ms, minRatings);
  }
}
