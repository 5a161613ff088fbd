# Intelligent Investing: a verified model of the rule-to-alert pipeline

This project is a Dafny model of the core of Intelligent Investing, a
portfolio monitor. A user holds positions and writes alert rules over them,
such as "price 20% below cost basis" or "RSI below 30". A monitoring cycle
fetches prices and evaluates every enabled rule against the held symbols,
honouring a per-rule cooldown. Each trigger becomes a stored alert, which
stamps the rule's `last_triggered_at`, may carry an AI summary, and is
handed to a notifier. Around that pipeline sit:

- the market-data cache with broker-to-Yahoo symbol normalisation;
- Schwab CSV import;
- broker position sync;
- feedback metrics and leaderboards;
- strategy presets;
- SQL `LIKE` escaping.

One Dafny module models one source file:

| module | file | form |
|---|---|---|
| `Evaluators` | `src/core/rules/evaluators.py` | functions |
| `Engine` | `src/core/rules/engine.py` | functions and the loops of `evaluate_all`/`evaluate_rule` as methods |
| `Market` | `src/data/market/provider.py` | a `MarketDataProvider` class whose three caches are `map` fields |
| `AlertService` | `src/core/alerts/service.py` | methods over the repositories |
| `AlertStore`, `RuleStore`, `HoldingStore` | the three `repository.py` files | classes holding their table as a `seq` of rows and an id counter |
| `Importers` | `src/core/portfolio/importers.py` | functions for parsing, methods for the loops and the repository calls |
| `BrokerSync` | `src/core/brokers/sync.py` | methods; the linked account is a class |
| `Monitor` | `src/core/monitor.py` | methods |
| `MetricsModels`, `Metrics` | `src/core/metrics/models.py`, `src/core/metrics/service.py` | functions, with the counting loops as methods |
| `Leaderboard` | `src/api/routes/metrics.py` | the filter, sort and rank of the two leaderboards |
| `Presets` | `src/core/strategies/presets.py` | the preset registry |
| `LikeEscape` | `src/api/routes/strategies.py` | `_escape_like_pattern` |

`Records` holds the row types, `Common` the option, string and sequence
helpers, and `Sorting` Python's stable `list.sort(key=..., reverse=True)`
as an insertion sort on (key, item) pairs.

Conventions:

- Prices, thresholds and rates are `real`.
- Time is whole seconds (`int`). The clock reading `now` is a parameter.
- A Python exception that the caller observes is a `Result` error.
- Every network fetch is an input:
  - Yahoo quotes are a map from Yahoo symbol to price;
  - price histories are the close count and the two pandas EWM averages;
  - 52-week data is a map of (high, low) options;
  - the Plaid position list is a `Result`;
  - the AI generator is a function that returns an `Option<string>`.
- The notifier is modelled by the sequence of alerts handed to it.

A cache entry is fresh when `fetched_at >= now - ttl`
(src/data/market/provider.py:120,198,320), so an entry exactly TTL seconds
old is still a hit.

## Model

| member | source | states |
|---|---|---|
| Evaluators.ParseRuleType | src/core/rules/models.py:12-18 | `RuleType(tag)` succeeds exactly on the six registered tags; any other string has no rule type |
| Evaluators.TagRoundTrip | src/core/rules/evaluators.py:212-219 | every rule type's tag parses back to that rule type |
| Evaluators.RegistryKeys | src/core/rules/evaluators.py:212-219 | `EVALUATORS` has exactly the six rule types as keys |
| Evaluators.GetEvaluator | src/core/rules/evaluators.py:222-224 | `get_evaluator` is total over the six types and returns the evaluator that handles the given type |
| Evaluators.GetEvaluatorInjective | src/core/rules/evaluators.py:212-224 | distinct rule types get distinct evaluators |
| Evaluators.BelowCostPctFires | src/core/rules/evaluators.py:60-70 | with a positive cost basis, `price_below_cost_pct` fires iff price <= cost·(1 − threshold/100), i.e. the drop percentage reaches the threshold (inclusive) |
| Evaluators.AboveCostPctFires | src/core/rules/evaluators.py:88-98 | with a positive cost basis, `price_above_cost_pct` fires iff price >= cost·(1 + threshold/100) |
| Evaluators.CostPctNeedsCostBasis | src/core/rules/evaluators.py:67-68 | a cost-percentage rule never fires with a None or zero cost basis |
| Evaluators.BelowCostPctMonotone | src/core/rules/evaluators.py:67-70 | a lower price or a lower threshold keeps `price_below_cost_pct` firing |
| Evaluators.AboveCostPctMonotone | src/core/rules/evaluators.py:95-98 | a higher price or a lower threshold keeps `price_above_cost_pct` firing |
| Evaluators.AbsoluteRules | src/core/rules/evaluators.py:116-123 | the absolute rules ignore cost basis and indicator; both fire iff price equals the threshold; at least one always fires |
| Evaluators.RsiRules | src/core/rules/evaluators.py:160-169 | the RSI rules never fire without an indicator value, ignore price and cost basis, and fire at the threshold itself |
| Evaluators.NoCostBasisIffGuard | src/core/rules/evaluators.py:72-82 | the cost-percentage reason is "No cost basis available" exactly when `evaluate`'s guard rejects the input, and then the rule does not fire |
| Evaluators.RsiReasonZones | src/core/rules/evaluators.py:171-181 | the RSI reason is "RSI data unavailable" iff there is no value; otherwise the zone is "oversold" iff value < 30 (else "approaching oversold"), and "overbought" iff value > 70 (else "approaching overbought") |
| Evaluators.TriggeredCostReason | src/core/rules/evaluators.py:100-110 | when a cost-percentage rule fires, its reason carries the price, the cost basis, the threshold and a percentage that reaches the threshold and satisfies pct·cost = (cost − price)·100, or (price − cost)·100 for the rise |
| Evaluators.DropScenario | tests/test_evaluators.py:20-59 | with cost 100 and threshold 20 the rule fires at 75 with a 25% drop, and does not fire at 90 or 110 |
| Evaluators.DropScenarioText | src/core/rules/evaluators.py:80-82 | the rendered reason of that scenario reads "Price $75.00 is 25.0% below cost basis $100.00 (threshold: 20.0%)" |
| Engine.CooldownFacts | src/core/rules/engine.py:222-241 | with cooldown disabled, no last trigger or zero minutes, a rule is never in cooldown; otherwise it is in cooldown iff less than `cooldown_minutes`·60 s have passed; a cooldown only ends as time advances |
| Engine.HoldingsOfMembers | src/core/rules/engine.py:67-69 | a symbol's group holds exactly the user's holdings of that symbol |
| Engine.SymbolOrder | src/core/rules/engine.py:67-72 | the symbol list is duplicate-free and holds exactly the symbols with holdings |
| Engine.GroupBySymbol | src/core/rules/engine.py:67-69 | the `setdefault` loop builds one group per held symbol, in first-seen order, each group holding that symbol's holdings in order |
| Engine.MatchTargets | src/core/rules/engine.py:94-133 | the loop over target symbols appends exactly the matches of the specification, in target order |
| Engine.EvaluateRule | src/core/rules/engine.py:141-220 | `evaluate_rule` returns the specified outcome, which `RuleOutcomeSpec` describes |
| Engine.EvaluateAll | src/core/rules/engine.py:36-139 | `evaluate_all` returns the specified outcome, which `AllOutcomeSpec` describes |
| Engine.MatchFires | src/core/rules/engine.py:94-133 | a symbol yields a result iff it is held, has a fetched price, and the evaluator fires on the first holding's cost basis; the result carries the rule's id, name and threshold, the price, and the first holding's id and cost basis |
| Engine.MatchesMembers | src/core/rules/engine.py:94-133 | the results of one rule are exactly the matches of its target symbols |
| Engine.MatchesSound | src/core/rules/engine.py:94-133 | every result names a target symbol and comes from the rule |
| Engine.MatchesDistinct | src/core/rules/engine.py:94-97 | distinct targets give at most one result per symbol |
| Engine.RsiRulesSilent | src/core/rules/engine.py:107-111 | RSI rules never produce a result, because the engine passes no indicator value |
| Engine.RuleOutcomeSpec | src/core/rules/engine.py:159-220 | a rule in cooldown yields nothing unless `ignore_cooldown` is set; the unknown-tag `ValueError` arises iff the rule is evaluated and its tag is not a rule type; the results have distinct symbols and come from the rule's targets (only its own symbol when it is scoped); every firing target yields a result |
| Engine.RuleProduces | src/core/rules/engine.py:159-220 | every result of a rule evaluated under cooldown is produced by that rule (out of cooldown, known tag, fields carried over), with distinct symbols |
| Engine.RulesOutcomeOk | src/core/rules/engine.py:78-92 | the rule loop succeeds iff every rule's own evaluation succeeds |
| Engine.RulesOutcomeSpec | src/core/rules/engine.py:78-133 | every result is produced by one of the rules; with distinct rule ids there is at most one result per (rule, symbol) |
| Engine.ActiveRulesDistinct | src/core/rules/engine.py:54-58 | the enabled rules of a table with distinct ids have distinct ids |
| Engine.AllOutcomeSpec | src/core/rules/engine.py:36-139 | with no holdings the result is empty whatever the rules; the call raises iff the user holds something and some enabled rule of the user, out of cooldown, has an unknown tag; each result comes from an enabled rule of the user and names a holding of the user with that symbol and its cost basis; at most one result per (rule, symbol) |
| Engine.AllOutcomeFails | src/core/rules/engine.py:78-92 | the rule loop raises iff some rule out of cooldown has an unknown tag |
| Market.NormalizeSymbol | src/data/market/provider.py:39-59 | `normalize_symbol` returns the upper-cased symbol and its Yahoo form |
| Market.YahooCases | src/data/market/provider.py:30-57 | the Yahoo form replaces the first matching suffix, tried in the order "/WS", "/W", ".WS", ".W", by "-WT"; otherwise it equals the original |
| Market.SuffixesExclusive | src/data/market/provider.py:30-36 | no symbol ends with two mapped suffixes, so the first match is the only match |
| Market.YahooIdempotent | src/data/market/provider.py:30-57 | normalising an already normalised Yahoo symbol returns it unchanged |
| Market.YahooBase | src/data/market/provider.py:52-57 | a rewritten symbol is a prefix of the original followed by "-WT" |
| Market.WarrantFixed | src/data/market/provider.py:30-36 | nothing ending in "-WT" is rewritten |
| Market.WarrantExample | src/data/market/provider.py:39-59 | "IONQ/WS" becomes "IONQ-WT", and "AAPL" is unchanged |
| Market.EffectiveTtl | src/data/market/provider.py:75 | `cache_seconds` falls back to the default when 0 or None and is never 0 |
| Market.MarketDataProvider.constructor | src/data/market/provider.py:68-76 | a new provider has the effective TTL and empty caches |
| Market.PriceLookupCases | src/data/market/provider.py:104-150 | a fresh cache entry for the upper-cased symbol is returned without a fetch and the cache is untouched; otherwise a fetched quote is returned and stored under the original symbol with `now`; a failed fetch returns None and leaves the cache as it was |
| Market.SecondLookupHitsCache | src/data/market/provider.py:119-122 | after a successful lookup, a second lookup at the same time hits the cache and returns the same price whatever the quotes |
| Market.PriceLookupUpper | src/data/market/provider.py:117 | lookup ignores the symbol's case |
| Market.PriceLookupStable | src/data/market/provider.py:134-150 | storing any price does not change the answer of any lookup at the same time |
| Market.MarketDataProvider.GetPrice | src/data/market/provider.py:104-150 | `get_price` returns the specified lookup, updates only the price cache, and only as specified |
| Market.BatchPricesSpec | src/data/market/provider.py:152-167 | `get_prices` has exactly the upper-cased symbols whose `get_price` is not None, each with that price |
| Market.BatchStoreSpec | src/data/market/provider.py:152-167 | after the batch no lookup at the same moment answers differently; every requested symbol that was found has a fresh row with the price it was found at; no row is dropped; only rows of requested symbols change |
| Market.MarketDataProvider.GetPrices | src/data/market/provider.py:152-167 | the batch loop returns the specified map, leaves the price cache as `get_price` applied to each symbol in turn (`BatchStore`), and changes no later lookup |
| Market.CalculateRsi | src/data/market/provider.py:259-299 | RSI is None iff there are fewer than period+1 closes, the period is not positive, or an average is NaN; otherwise it lies in [0, 100] |
| Market.RsiValue | src/data/market/provider.py:284-299 | a zero average loss gives 100 if the average gain is positive, else 50; otherwise the value is 100·gain/(gain+loss) |
| Market.RsiAlgebra | src/data/market/provider.py:293-296 | 100 − 100/(1 + gain/loss) equals 100·gain/(gain+loss) and lies in [0, 100] |
| Market.Clamp | src/data/market/provider.py:299 | the clamp lands in [0, 100] and keeps a value already inside |
| Market.FetchRsi | src/data/market/provider.py:203-218 | a fetched RSI lies in [0, 100] |
| Market.RsiLookupSpec | src/data/market/provider.py:169-257 | RSI values stay in [0, 100] in the result and the cache; a successful `get_rsi` leaves exactly one entry for (symbol, "rsi_N", timeframe) holding the value, and touches no other key; on a miss that entry is (value, now); a failure leaves the cache unchanged |
| Market.MarketDataProvider.GetRsi | src/data/market/provider.py:169-257 | `get_rsi` returns the specified lookup and updates only the indicator cache |
| Market.WeekLookupSpec | src/data/market/provider.py:301-361 | a complete entry at most 4 h old is returned without a fetch (the code's TTL is max(TTL, 4 h)); an entry missing high or low is refetched; a failed fetch leaves the cache as it was; no other symbol's entry changes |
| Market.MarketDataProvider.Get52WeekData | src/data/market/provider.py:301-361 | `get_52_week_data` returns the specified lookup and updates only the 52-week cache |
| Market.IndicatorCaseInsensitive | src/data/market/provider.py:382 | `get_indicator` lower-cases the indicator name, so case does not matter |
| Market.IndicatorUnknown | src/data/market/provider.py:393-395 | a name not starting with "rsi" gives None |
| Market.IndicatorRoundTrip | src/data/market/provider.py:384-391 | "rsi_N" gives period N for every N |
| Market.IndicatorExamples | src/data/market/provider.py:382-395 | "rsi" and "RSI_14" give 14; "rsi_" and "macd" give None |
| Market.MarketDataProvider.GetIndicator | src/data/market/provider.py:363-395 | an unknown indicator returns None and touches no cache; otherwise `get_indicator` is `get_rsi` with the parsed period |
| AlertStore.Newest | src/core/alerts/repository.py:89-95 | a newest-first query returns at most `limit` matching alerts, in non-increasing trigger time |
| AlertStore.NewestFacts | src/core/alerts/repository.py:89-95 | the ordering is a permutation of the matching alerts, sorted newest first |
| AlertStore.NewestComplete | src/core/alerts/repository.py:89-95 | exactly min(limit, matches) alerts come back; all matches when they fit; every match left out is no newer than those returned |
| AlertStore.Recent | src/core/alerts/repository.py:71-95 | `get_recent` returns only the user's alerts, at most `limit`, newest first |
| AlertStore.BySymbol | src/core/alerts/repository.py:97-124 | `get_by_symbol` returns only the user's alerts for the upper-cased symbol, at most `limit`, newest first |
| AlertStore.ByRule | src/core/alerts/repository.py:126-146 | `get_by_rule` returns only the rule's alerts, at most `limit`, newest first |
| AlertStore.FindAlert | src/core/alerts/repository.py:67-69 | `get_by_id` finds the alert with that id, or reports that none exists |
| AlertStore.AlertRepository.Create | src/core/alerts/repository.py:32-65 | appends a new alert with a fresh id, the upper-cased symbol, `triggered_at` = now, the given AI summary, and `notified` false |
| AlertStore.AlertRepository.MarkNotified | src/core/alerts/repository.py:148-162 | returns false and changes nothing for an unknown id; otherwise sets only `notified` |
| AlertStore.AlertRepository.UpdateAiSummary | src/core/alerts/repository.py:164-179 | returns false with no change for an unknown id; otherwise replaces only `ai_summary` |
| AlertStore.AlertRepository.Delete | src/core/alerts/repository.py:181-195 | returns true iff the alert existed, and removes only that alert |
| AlertStore.AlertRepository.ClearAll | src/core/alerts/repository.py:197-211 | removes exactly the user's alerts and returns how many were removed |
| RuleStore.ActiveRulesMembers | src/core/rules/repository.py:52-64 | `get_active` returns exactly the user's enabled rules |
| RuleStore.ActiveSubset | src/core/rules/repository.py:38-64 | `get_all` returns exactly the user's rules, and the active rules are the enabled ones among them |
| RuleStore.FindRule | src/core/rules/repository.py:66-68 | `get_by_id` finds the rule with that id, or reports that none exists |
| RuleStore.RuleByName | src/core/rules/repository.py:70-83 | `get_by_name` matches exactly on (user, name) |
| RuleStore.RuleUpdatedFields | src/core/rules/repository.py:152-168 | an update changes only the fields given; an empty symbol clears the scope, any other is upper-cased; id, owner, type and last trigger are kept; an update with no fields changes nothing |
| RuleStore.RuleRepository.Create | src/core/rules/repository.py:85-128 | appends a rule with a fresh id, the type's tag string, the upper-cased symbol and no last trigger |
| RuleStore.RuleRepository.Update | src/core/rules/repository.py:130-168 | returns None for an unknown id and otherwise the updated rule; only that row changes |
| RuleStore.RuleRepository.Delete | src/core/rules/repository.py:170-185 | returns true iff the rule existed; afterwards it is gone and nothing else is |
| RuleStore.RuleRepository.DeleteByName | src/core/rules/repository.py:187-203 | returns true iff a rule of that name and user existed; afterwards it is gone and nothing else is |
| RuleStore.RuleRepository.UpdateLastTriggered | src/core/rules/repository.py:205-214 | sets `last_triggered_at` to now on the rule with that id; an unknown id is a no-op |
| HoldingStore.UserHoldingsMembers | src/core/portfolio/repository.py:32-44 | `get_all` returns exactly the user's holdings |
| HoldingStore.FindHolding | src/core/portfolio/repository.py:46-48 | `get_by_id` finds the holding with that id, or reports that none exists |
| HoldingStore.HoldingBySymbol | src/core/portfolio/repository.py:50-68 | `get_by_symbol` finds the user's holding of the upper-cased symbol, or reports that none exists |
| HoldingStore.HoldingBySymbolIgnoresCase | src/core/portfolio/repository.py:60 | lookup by symbol ignores case |
| HoldingStore.UpdatedFields | src/core/portfolio/repository.py:137-142 | an update assigns only the fields given and keeps id, owner and symbol; updating twice is updating once |
| HoldingStore.UpdateCheck | src/core/portfolio/repository.py:132-135 | an update is refused iff shares or cost basis is given and not positive |
| HoldingStore.HoldingRepository.Create | src/core/portfolio/repository.py:70-104 | appends a holding with a fresh id and the upper-cased symbol, with no positivity check |
| HoldingStore.HoldingRepository.Update | src/core/portfolio/repository.py:106-145 | an unknown id returns None and changes nothing; a non-positive value is refused before any field changes; otherwise only that row is updated |
| HoldingStore.HoldingRepository.Delete | src/core/portfolio/repository.py:147-167 | deletes iff the id exists and, when an owner is given, it owns the holding; nothing else changes |
| HoldingStore.HoldingRepository.DeleteBySymbol | src/core/portfolio/repository.py:169-185 | deletes the user's holding of the upper-cased symbol iff it exists, and only that holding |
| AlertService.Message | src/core/alerts/service.py:100-108 | the message is the rule name, ": ", then the reason |
| AlertService.PercentChange | src/core/alerts/service.py:136-140 | the percent change given to the generator exists iff the cost basis is positive, and is positive (zero) iff the price is above (at) the cost basis |
| AlertService.SignOfGain | src/core/alerts/service.py:136-140 | the gain percentage has the sign of price − cost |
| AlertService.Summary | src/core/alerts/service.py:74-77 | an AI summary is attached only when AI is on, a generator is present and it returns a non-empty text; a failing generator gives none |
| AlertService.TriggeredMembers | src/core/alerts/service.py:62-64 | the processed results are exactly the triggered ones |
| AlertService.StampedRules | src/core/alerts/service.py:71 | a rule is stamped iff some triggered result names it |
| AlertService.ProcessOne | src/core/alerts/service.py:85-120 | one triggered result appends one alert built from it and stamps its rule with `now`; a missing rule changes nothing |
| AlertService.ProcessResult | src/core/alerts/service.py:62-80 | one pass of the result loop: a triggered result adds its alert, stamps its rule and is notified when `notify` is set; an untriggered one changes nothing |
| AlertService.ProcessEvaluationResults | src/core/alerts/service.py:44-83 | alerts correspond one to one, in order, with the triggered results; the alert table grows by exactly them; the notifier gets every alert once when `notify` is set and none otherwise; exactly the triggered rules are stamped |
| AlertService.CreateTestAlert | src/core/alerts/service.py:159-204 | reuses the user's "__test_rule__" or creates it disabled, as `price_below_value` with threshold 0; creates one alert for it and never stamps the rule; the alert id counter advances by one, and the rule id counter too when the test rule is created |
| Importers.ParseCurrency | src/core/portfolio/importers.py:40-54 | None, empty, "N/A" and "--" parse to None |
| Importers.ParseQuantity | src/core/portfolio/importers.py:57-71 | None, empty, "N/A" and "--" parse to None |
| Importers.ParsedAmountChars | src/core/portfolio/importers.py:49-54 | a parsed amount contains only digits, sign, point, "$" and ","; a parsed quantity contains no "$" |
| Importers.QuantityVersusCurrency | src/core/portfolio/importers.py:40-71 | a "$" makes a quantity unparsable; without one, a quantity parses as the same amount |
| Importers.ColumnsOf | src/core/portfolio/importers.py:123-133 | the quantity column is a column containing "Qty" or "Quantity" and exists iff one does; the cost column is exactly "Cost Basis"; the type column contains "Security Type" |
| Importers.MapColumns | src/core/portfolio/importers.py:123-133 | the column loop computes those columns |
| Importers.FindHeader | src/core/portfolio/importers.py:100-108 | the header is the first line containing "Symbol" |
| Importers.LotOf | src/core/portfolio/importers.py:168-177 | a lot keeps its quantity, its total cost (0 when missing) and per-share cost = total/shares |
| Importers.ReadRow | src/core/portfolio/importers.py:140-208 | a missing symbol cell is a row error; an empty, "cash & cash investments", "account total" or "NO NUMBER" symbol is skipped; a lot has a kept security type (empty, equity or a warrant), a positive quantity and the row's cost |
| Importers.AggregateSpec | src/core/portfolio/importers.py:183-205 | each symbol appears once, with shares and total cost summed over its lots, per-share cost = total/shares, and the first lot's description |
| Importers.AddLotSpec | src/core/portfolio/importers.py:183-205 | folding in one more lot keeps that aggregation |
| Importers.RowErrorsShape | src/core/portfolio/importers.py:207-208 | each row error begins with "Row " and there are no more errors than rows |
| Importers.LotsSymbols | src/core/portfolio/importers.py:140-205 | an aggregated symbol comes from a kept row |
| Importers.ParseSchwabSpec | src/core/portfolio/importers.py:74-211 | fewer than 4 lines, no header line or no quantity column each give exactly one error and no positions; otherwise the positions aggregate the lots of the kept rows, and there are at most as many errors as rows, each beginning with "Row " |
| Importers.ReadRows | src/core/portfolio/importers.py:137-208 | the row loop accumulates exactly the specified positions and row errors |
| Importers.ParseSchwabCsv | src/core/portfolio/importers.py:74-211 | `parse_schwab_csv` returns the specified positions and errors |
| Importers.DeleteUserHoldings | src/core/portfolio/importers.py:243-247 | "replace" removes exactly the user's holdings |
| Importers.ImportOne | src/core/portfolio/importers.py:249-276 | a new symbol is created; an existing one is skipped in "add_only" mode, otherwise updated with the position's shares and per-share cost or, when the update is refused, reported with its symbol; no other symbol's holding changes; "add_only" only appends; when the mode updates and the values are accepted, the symbol's holding has the position's shares and cost |
| Importers.ImportAll | src/core/portfolio/importers.py:249-276 | every position is counted once as created, updated, skipped or failed; "add_only" updates nothing and only appends rows; every position's symbol is held afterwards; the last position of each symbol, when the mode updates and `update` accepts its values, leaves its shares and per-share cost on the holding; a symbol no position names keeps its holding exactly as it was |
| Importers.ImportPositions | src/core/portfolio/importers.py:214-278 | counts add up to the positions; other users' holdings are untouched; outside "replace" none of the user's holdings disappear; with "replace" all of them are new, and distinct symbols are all created; "add_only" leaves every existing row as it was and only appends; the last position of each symbol, when the mode updates and `update` accepts its values, leaves its shares and per-share cost on the holding; outside "replace" a symbol no position names keeps its holding exactly as it was |
| Importers.ImportSchwabCsv | src/core/portfolio/importers.py:281-310 | parse errors give zero counts and no positions, and the holdings are untouched; otherwise the parsed positions are imported with all of `ImportPositions`' guarantees: counts, held symbols, other users untouched, no id or symbol lost outside "replace", only new rows of the user with "replace", append-only "add_only", each last position's values written, and unnamed symbols kept outside "replace" |
| BrokerSync.Failure | src/core/brokers/sync.py:107-130 | a failed sync has success false, all counts 0 and the one error |
| BrokerSync.SyncedCost | src/core/brokers/sync.py:214 | an existing holding takes the position's cost basis if it is truthy, else keeps its own |
| BrokerSync.SyncOne | src/core/brokers/sync.py:199-238 | a non-equity/etf/mutual-fund position is skipped; an existing symbol is updated only in "upsert" mode and skipped otherwise; a new symbol is created only with a positive cost basis, else skipped; `SyncOutcome` states what the symbol's holding becomes (the position's shares and `SyncedCost` on an upsert, the position's shares and cost on a creation); no other symbol's holding changes; outside "upsert" it only appends |
| BrokerSync.SyncAll | src/core/brokers/sync.py:199-238 | every position is counted once; outside "upsert" nothing is updated or fails; when no position is syncable nothing is created or updated and the holdings are untouched; only the user's rows change and new rows have a positive cost basis; outside "upsert" the old rows stay as they were; in "upsert" the last position of each symbol with positive shares and cost leaves them on the holding; a position whose symbol no other position names has its `SyncOutcome` against the starting table; a symbol no position lists keeps its holding exactly as it was |
| BrokerSync.SyncPositions | src/core/brokers/sync.py:172-249 | `positions_fetched` is the number of positions; `positions_synced` = created + updated; success iff there are no errors; created holdings have a positive cost basis; other users are untouched; outside "replace" no held id or symbol disappears; after "replace" every holding of the user is new; outside "upsert" and "replace" the old rows stay as they were; in "upsert" the last position of each symbol with positive shares and cost leaves them on the holding; a position whose symbol no other position names has its `SyncOutcome` against the old table, or against an empty table with "replace"; outside "replace" a symbol no position lists keeps its holding exactly as it was (all of the table's part is the predicate `SyncApplied`) |
| BrokerSync.LinkedAccount.constructor | src/core/brokers/sync.py:63-72 | a new linked account is active, sync-enabled and never synced |
| BrokerSync.SyncAccount | src/core/brokers/sync.py:93-170 | an unsupported broker or disabled sync fails with one error and no change; a fetch error is recorded and fails with zero counts; a successful sync sets `last_synced_at` and clears the error and `needs_reauth`, and leaves the holdings as `_sync_positions` does: other users' rows untouched, new rows with a positive cost basis, no holding of the user lost outside "replace", only new rows of the user with "replace", updates only with "upsert", the old rows kept outside "upsert" and "replace", each last position's shares and cost written in "upsert", and each sole-of-its-symbol position's `SyncOutcome` (against an empty table with "replace"), and outside "replace" the holdings of symbols no position lists kept as they were (`SyncApplied`) |
| BrokerSync.UnlinkAccount | src/core/brokers/sync.py:266-274 | unlinking clears `is_active` and `sync_enabled` and keeps the record |
| BrokerSync.CheckAccountStatus | src/core/brokers/sync.py:282-296 | the account is valid iff the broker is supported and the token valid; only an invalid token sets `needs_reauth` |
| Monitor.SettingsOf | src/core/monitor.py:39 | the settings row is the user's, or there is none |
| Monitor.TelegramChat | src/core/monitor.py:47-58 | with Telegram enabled on the row, Telegram is added iff a bot token exists and the row's or the env chat id is non-empty (the row's first); otherwise it is added iff the env token and chat id are both set |
| Monitor.GetNotifier | src/core/monitor.py:28-66 | the result is never empty: with a Telegram chat and console wanted (no row, or console enabled) it is a multi-channel wrapper of console then Telegram; with a chat alone, Telegram; without a chat, console |
| Monitor.TelegramDisabledStillSends | src/core/monitor.py:55-58 | a user who disabled Telegram still gets it when the env configures it, exactly as with no row |
| Monitor.RunCycle | src/core/monitor.py:89-141 | the engine runs with cooldown = not `ignore_cooldown`; when nothing triggers, the cycle returns [] without a notifier and changes nothing; otherwise it returns the processed alerts, notifies every one through the notifier `get_notifier` chooses for the user's settings row and configuration, and stamps `last_triggered_at` on exactly the rules that triggered |
| Monitor.SummaryOff | src/core/monitor.py:116-129 | with AI off, having a generator or not makes no difference |
| Monitor.UserByEmail | src/core/monitor.py:153 | the lookup by email finds a user with that email, or reports that none exists |
| Monitor.UserTable.DefaultUserId | src/core/monitor.py:144-158 | the default user is created when missing, and its id is always returned |
| MetricsModels.UsefulnessRate | src/core/metrics/models.py:25-30 | None iff nothing is rated; otherwise in [0, 100], 100 iff there is no noise, 0 iff nothing is useful or actionable |
| MetricsModels.NoiseRate | src/core/metrics/models.py:32-37 | None iff nothing is rated; otherwise in [0, 100], 0 iff there is no noise |
| MetricsModels.RatingRate | src/core/metrics/models.py:39-44 | 0 when there are no alerts; otherwise non-negative, at most 100 while rated <= total, and 0 iff nothing is rated |
| MetricsModels.RatesComplement | src/core/metrics/models.py:25-37 | whenever something is rated, usefulness rate + noise rate = 100 |
| Metrics.FeedbackBreakdownForAlerts | src/core/metrics/service.py:375-389 | the counting loop computes the specified breakdown |
| Metrics.BreakdownCounts | src/core/metrics/service.py:375-389 | total is the number of alerts; each bucket counts its feedback value; unrecognised feedback is unrated; the four buckets add up to the total |
| Metrics.BucketsPartition | src/core/metrics/service.py:379-387 | every alert lands in exactly one bucket |
| Metrics.TallyCounts | src/core/metrics/service.py:379-387 | the tally loop adds to each bucket the number of alerts with that feedback and keeps the total |
| Metrics.IsValidPrice | src/core/metrics/service.py:391-398 | a price is valid iff it is a number and positive (None, NaN and non-numbers are not) |
| Metrics.Change | src/core/metrics/service.py:420-423 | the change of a qualifying alert is above −100% |
| Metrics.Changes | src/core/metrics/service.py:405-423 | one change per qualifying alert, each above −100% |
| Metrics.HorizonMovement | src/core/metrics/service.py:400-451 | the average and the positive rate are None iff no alert has both prices valid; the average is above −100%; the rate lies in [0, 100] |
| Metrics.MovementIgnoresUnqualified | src/core/metrics/service.py:404-416 | alerts without both valid prices do not affect the movement |
| Metrics.CountSince | src/core/metrics/service.py:183-188 | a window count never exceeds the alert count |
| Metrics.WindowsNested | src/core/metrics/service.py:183-188 | a later window start never counts more alerts |
| Metrics.LastFired | src/core/metrics/service.py:197-199 | the last firing time is None iff there are no alerts, and is otherwise the latest trigger time |
| Metrics.AvgFiresPerWeek | src/core/metrics/service.py:197-208 | 0 for at most one alert; otherwise in (0, n], and n when the span is at most a week |
| Metrics.FiringRate | src/core/metrics/service.py:201-208 | the weekly rate of a rule's alerts is 0 for at most one alert and otherwise in (0, n] |
| Metrics.RuleMetricsOf | src/core/metrics/service.py:164-210 | a rule's metrics copy its fields, count its alerts, and keep both window counts within the total (7 days within the period when the period is longer) |
| Metrics.MetricsOfRules | src/core/metrics/service.py:164-210 | the loop over the user's rules builds one metrics entry per rule, in rule order |
| Metrics.GetRuleMetrics | src/core/metrics/service.py:155-214 | the user's rule metrics, as a permutation sorted by non-increasing total |
| Metrics.SortedByTotal | src/core/metrics/service.py:213 | sorting rule metrics by total keeps the same entries and orders them by non-increasing total |
| Metrics.TypeCountsKeys | src/core/metrics/service.py:262-268 | a rule type is a key of the counts iff some alert has a rule of that type, and no count exceeds the number of alerts |
| Metrics.RuleTypeCounts | src/core/metrics/service.py:262-268 | the loop counts alerts per rule type of the user's rules, with a key only for types that occur |
| Metrics.UsefulnessEntriesSpec | src/core/metrics/service.py:491-517 | a rule has a per-symbol usefulness iff it has at least 2 ratings, and the entry is its usefulness rate |
| Metrics.GroupByRule | src/core/metrics/service.py:504-506 | the grouping loop gives every rule with alerts its alerts in order, and rules in first-alert order |
| Metrics.UsefulnessOfGroups | src/core/metrics/service.py:508-515 | the loop over the groups yields, in key order, an entry for each rule with at least two rated alerts, holding its usefulness rate |
| Metrics.RuleUsefulnessForSymbol | src/core/metrics/service.py:491-517 | the grouping loop computes those entries, in first-alert order |
| Metrics.BestEntry | src/core/metrics/service.py:273-276 | the best (rule, usefulness) pair is None iff there are none; otherwise it is the first with the highest usefulness |
| Metrics.BestUsefulEntry | src/core/metrics/service.py:270-278 | the best entry exists iff some rule has 2 ratings on the symbol, and it has the highest usefulness among those |
| Metrics.AssetMetricsOf | src/core/metrics/service.py:236-280 | an asset's metrics count the user's alerts on the symbol and keep both windows within the total; the best rule and its usefulness are present together |
| Metrics.AssetBestRule | src/core/metrics/service.py:270-278 | the asset's best rule exists iff some rule has 2 ratings on it, and it has the highest usefulness among those |
| Metrics.SymbolsOf | src/core/metrics/service.py:227-232 | the distinct symbols of the user's alerts, each once |
| Metrics.AssetMetricsFor | src/core/metrics/service.py:236-280 | the per-symbol body computes the specified asset metrics |
| Metrics.MetricsOfSymbols | src/core/metrics/service.py:236-280 | the loop over symbols builds one asset entry per symbol, in order |
| Metrics.GetAssetMetrics | src/core/metrics/service.py:216-284 | one entry per symbol the user has alerts on, as a permutation sorted by non-increasing total |
| Metrics.SortedByAssetTotal | src/core/metrics/service.py:283 | sorting asset metrics by total keeps the same entries and orders them by non-increasing total |
| Metrics.Score | src/core/metrics/service.py:465-484 | a rule's score lies in [0, 100] and is its usefulness (noise) rate when it has ratings |
| Metrics.TopRule | src/core/metrics/service.py:453-489 | the best (noisiest) rule is None iff no rule has 3 ratings; otherwise it has the highest usefulness (noise) among such rules and is the first to reach it |
| Metrics.NoiseScoreComplement | src/core/metrics/service.py:464-487 | a rule's noise score is 100 minus its usefulness score |
| Metrics.MostUsefulRule | src/core/metrics/service.py:65-69 | the summary's most useful rule is None iff no rule is rated; otherwise it has the highest usefulness rate among the rated rules |
| Metrics.NoisiestRuleAsWritten | src/core/metrics/service.py:65-70 | the noisiest rule as written is None iff no rule is rated; otherwise it is the name of the first rated rule whose `usefulness_rate or 100` is lowest |
| Metrics.NoisiestRule | src/core/metrics/service.py:65-70 | the intended noisiest rule has the lowest usefulness rate among the rated rules |
| Metrics.NoisiestAgreesWithoutZeroRate | src/core/metrics/service.py:65-70 | when no rated rule is exactly 0% useful, the as-written and the intended choice coincide |
| Metrics.NoisiestZeroRateMissed | src/core/metrics/service.py:68 | a rule at 0% usefulness is not chosen as noisiest over one at 50% |
| Metrics.MostSignalsAsset | src/core/metrics/service.py:73-75 | the summary's top asset has the most alerts, and exists iff there are assets |
| Metrics.MostSignalsIsHead | src/core/metrics/service.py:73-75 | on the sorted asset list, the top asset is the first entry |
| Metrics.HighlightsOf | src/core/metrics/service.py:49-75 | alerts in the period never exceed the user's alerts; the overall usefulness is None iff none of the user's alerts is rated; most useful and noisiest rule are absent together, exactly when no rule is rated (the noisiest rule is chosen as written, by `NoisiestRuleAsWritten`); the top asset is absent iff there are no assets |
| Metrics.GetSummary | src/core/metrics/service.py:30-77 | the summary holds the sorted rule and asset metrics and the highlights computed from them |
| Leaderboard.Rank | src/api/routes/metrics.py:348-360 | `enumerate(..., 1)` gives the i-th entry rank i + 1 and keeps the entries |
| Leaderboard.RuleRowOf | src/api/routes/metrics.py:350-358 | a rule row carries the rank, the rated count and the usefulness rate (0 when None), both rates in [0, 100] |
| Leaderboard.AssetRowOf | src/api/routes/metrics.py:391-397 | an asset row carries the rank, the rated count and the usefulness rate (0 when None), in [0, 100] |
| Leaderboard.BoardContents | src/api/routes/metrics.py:337-340 | a leaderboard holds exactly the entries with at least `min_ratings` ratings, as a permutation of them |
| Leaderboard.BoardOrdered | src/api/routes/metrics.py:343-360 | ranks are 1..n in list order, and usefulness never increases down the list |
| Leaderboard.BoardMembers | src/api/routes/metrics.py:337-340 | an entry is on the board iff it has at least `min_ratings` ratings |
| Leaderboard.BoardStable | src/api/routes/metrics.py:343-346 | entries with equal usefulness keep their input order |
| Leaderboard.RulesLeaderboardSpec | src/api/routes/metrics.py:323-360 | the rules leaderboard (default minimum 3) ranks the qualifying rules 1..n by non-increasing usefulness, with None counted as 0 and both rates in [0, 100] |
| Leaderboard.AssetsLeaderboardSpec | src/api/routes/metrics.py:364-399 | the assets leaderboard (default minimum 2) ranks the qualifying assets 1..n by non-increasing usefulness |
| Leaderboard.OrZero | src/api/routes/metrics.py:344 | `usefulness_rate or 0` is the rate, or 0 when there is none |
| Presets.TaggedName | src/core/strategies/presets.py:37-38 | a prefixed name starts with "[id]": unchanged if it already did, otherwise "[id] " + name |
| Presets.TaggedNameIdempotent | src/core/strategies/presets.py:37-38 | prefixing twice is prefixing once |
| Presets.TaggedRules | src/core/strategies/presets.py:34-38 | after construction every rule name of a preset starts with "[id]" and nothing else changes |
| Presets.PostInit | src/core/strategies/presets.py:34-38 | the `__post_init__` loop renames the rules as specified |
| Presets.TaggedRulesIdempotent | src/core/strategies/presets.py:34-38 | constructing twice renames nothing further |
| Presets.KeyIndex | src/core/strategies/presets.py:327-336 | the index of the first registry entry with the key, or None iff no entry has it |
| Presets.Lookup | src/core/strategies/presets.py:327-336 | `PRESETS.get(key)` returns a preset registered under the key, and None iff none is |
| Presets.LookupFindsKey | src/core/strategies/presets.py:316-336 | a lower-case key that is the first of its kind finds its own preset |
| Presets.ListPresets | src/core/strategies/presets.py:339-345 | `list_presets` returns all registry presets in registry order |
| Presets.GetPresetIgnoresCase | src/core/strategies/presets.py:327-336 | `get_preset` lower-cases its argument; an unknown id gives None |
| Presets.RegistryKeysAreIds | src/core/strategies/presets.py:316-324 | the registry has seven entries, each keyed by its preset's id |
| Presets.GetPresetFindsEveryPreset | src/core/strategies/presets.py:316-336 | every preset is found by its own id |
| LikeEscape.EscapeLikeIsPerChar | src/api/routes/strategies.py:28-29 | the three chained replacements escape each "\\", "%" and "_" with one backslash and copy every other character in order; introduced backslashes are not doubled again |
| LikeEscape.EscapeLikeIdentity | src/api/routes/strategies.py:29 | a string without special characters is unchanged |
| LikeEscape.EscapeLikeLength | src/api/routes/strategies.py:29 | the output length is the input length plus the number of special characters |
| LikeEscape.EscapeChar | src/api/routes/strategies.py:29 | a special character is prefixed with one backslash; any other is kept |
| LikeEscape.UnescapeEscapeLike | src/api/routes/strategies.py:28-29 | unescaping the escaped pattern gives the input back |
| Sorting.SortByPermutes | src/core/metrics/service.py:213 | `list.sort` keeps the same elements |
| Sorting.SortBySorted | src/core/metrics/service.py:283 | with `reverse=True` the keys are non-increasing |
| Sorting.SortByStable | src/api/routes/metrics.py:343-346 | elements with equal keys keep their order |

## Left out

- Yahoo Finance calls and the thread-pool timeout wrapper are left out. Every fetch is an input map, and a timeout or exception is a missing key.
- pandas `diff`/`ewm`/`isna` in `_calculate_rsi` are floating-point library numerics. The close count and the two EWM averages are inputs, and NaN is None.
- SQLAlchemy sessions, `merge`/`flush`/`rollback` and the `IntegrityError` retry of `get_rsi` are collapsed into map and sequence updates. Rows come back in insertion order wherever SQL leaves the order open.
- The scheduler, signal handlers and process exit are left out; they are about timing and concurrency.
- Notification transport is left out. The notifier is the sequence of alerts handed to it, and its return value is ignored, as in the code.
- The AI context generator and its prompts are a foreign call: a function that returns an optional text, where an exception is None.
  - src/ai/context/generator.py passes keyword arguments that src/ai/context/prompts.py does not accept, so in the code that path always yields None. The model keeps the generator abstract.
- The Plaid provider, authentication and the auth service are library wrappers. The Plaid position list is an input, and `is_token_valid` is a boolean input.
- The CLI, FastAPI handlers (apart from the two helpers modelled), onboarding, the web dashboard, telemetry and configuration are UI/HTTP plumbing and are left out.
- `_get_or_create_default_user` inside the repositories is left out: every repository call takes an explicit user id.
- `get_rule_performance_report`, `get_asset_performance_report`, `sync_all_accounts` and `delete_account` are outside the modelled core.
- Exact float formatting (`:.1f`, `:.2f`, and the float repr of `{threshold}` in src/core/rules/evaluators.py:82,110) and the leaderboards' `round` are left out. Reasons are a structured `Reason` value rendered with exact decimals; the threshold is rendered with one decimal, which matches Python only for thresholds with at most one decimal (12.25 prints "12.25" in Python). Leaderboard rates are unrounded.
- Evaluators.BelowCostPctFires: the threshold form is stated for a positive cost basis only. A negative cost basis, which the code does not exclude, flips the inequality; for it only the guard (`CostPctNeedsCostBasis`) is stated.
- Evaluators.AboveCostPctFires: stated for a positive cost basis only, for the same reason.
- Importers.ImportPositions: the holdings' values are stated per symbol only for the last position of that symbol, in a mode that updates, with values `update` accepts. A creation in "add_only" mode, and a creation with non-positive values (which `create` does not check), are stated only for the single step, by `ImportOne`.
- BrokerSync.SyncPositions: the holdings' values are stated per symbol for a position whose symbol no other position names (`SyncOutcome`), and in "upsert" for the last position of a symbol with positive shares and cost. A symbol named by several positions whose last one has a missing or zero cost is stated only for the single step, by `SyncOne`.
- Importers.ParseCurrency: the contract states the None cases and, through `ParsedAmountChars`, which characters a parsed amount can contain. It does not state the parsed number (e.g. "$1,234.56" → 1234.56): the decimal parser is only characterised.
- Importers.ParseQuantity: same as `ParseCurrency`. It also parses only plain decimals (see `ParseDecimal` below): a quantity cell "nan" or "1e3" is kept by the code (`nan <= 0` is false; "1e3" is 1000 shares), while the model skips the row.
- Importers.ParsedAmountChars: holds of the model's plain-decimal parser only. Python's `float()` also accepts exponents ("1e3"), "inf", "nan" and digit underscores ("1_000"), whose characters fall outside the stated set.
- Common.ParseDecimal: parses only an optional sign, digits and one point. The exponent, "inf"/"infinity", "nan" and underscore spellings that Python's `float()` accepts give None here, and there is no real value for inf or nan.
- Common.ParseInt: accepts ASCII digits only. Python's `int()` also accepts digit underscores ("1_000") and non-ASCII digits.
- Common.Upper, Common.Lower: map ASCII letters only. Python's `str.upper()`/`str.lower()` also map non-ASCII letters (and may change the length, "ß" → "SS").
- Common.Strip: strips the six ASCII whitespace characters only. Python's `str.strip()` also strips "\x1c"-"\x1f", "\x85", "\xa0" and the other Unicode whitespace.
- HoldingStore.UpdateCheck: the refusal texts omit the ", got {value}" suffix of src/core/portfolio/repository.py:133,135, because Python's float repr is not modelled. The import and sync error lists built from them carry the fixed prefix only.
- Presets: every preset and template `description` text (src/core/strategies/presets.py:45-324) is replaced by "". The descriptions are display text that no operation reads.
- The CSV reader is an input that maps the lines from the header on to field names and rows. A missing cell is None, which makes the row's `.strip()` raise. Quoting rules are left out.
- `RuleType` in src/core/rules/models.py:12-18 declares only four tags, while the registry and tests use six. The model has six, so the RSI rule types that the presets use exist here.
- src/core/monitor.py:14-19 imports `TelegramNotifier` and `MultiNotifier`, which src/core/alerts/notifier.py does not define. The notifier is a `Single`/`Multi` value with no transport, retry or backoff.
- src/core/monitor.py:130 passes `market_provider=` to `AlertService`, whose constructor (src/core/alerts/service.py:23-29) has no such parameter. `Monitor.RunCycle` composes the engine and the alert service directly.
- src/api/routes/alerts.py:32 calls `get_by_rule` with a `user_id` that src/core/alerts/repository.py:126-130 does not accept. `AlertStore.ByRule` takes no user, as the repository does.
- The `Alert` ORM model (src/db/models.py) has no feedback or after-price columns, although the metrics read them. The metrics run over a separate `MetricAlert` record that carries them.
- An import into a symbol the user holds with a missing cost basis yields per-share cost 0. `update` refuses 0, so that position lands on the error list.

## Findings

| source | as written | input that shows it | evidently intended | confidence | as-written member | corrected member |
|---|---|---|---|---|---|---|
| src/core/metrics/service.py:68 | the noisiest rule is `min(rated_rules, key=lambda r: r.feedback.usefulness_rate or 100)`; a usefulness rate of exactly 0.0 is falsy and keyed as 100 | rated rules A (4 noise ratings, 0% useful) and B (2 useful, 2 noise, 50%): the code names B, the less noisy rule | the rated rule with the lowest usefulness rate, so A | not executed | Metrics.NoisiestRuleAsWritten, Metrics.NoisiestZeroRateMissed | Metrics.NoisiestRule |
