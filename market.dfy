/** The market-data provider: broker-to-Yahoo symbol spelling, and the
    price, RSI and 52-week lookups that answer from a time-limited cache and
    otherwise fetch.  A fetch is an oracle map: a key that is missing stands
    for a fetch that returned nothing, timed out or raised. */
module Market {
  import opened Common

  // ---------------------------------------------------------------------
  // Symbol spelling
  // ---------------------------------------------------------------------

  /** `SYMBOL_MAPPINGS`, in its iteration order. */
  const SymbolMappings: seq<(string, string)> :=
    [("/WS", "-WT"), ("/W", "-WT"), (".WS", "-WT"), (".W", "-WT")]

  /** The first mapping whose suffix `original` ends with rewrites that
      suffix; without one `original` is returned as it is. */
  function MapSuffix(original: string, mappings: seq<(string, string)>): string {
    if mappings == [] then original
    else if EndsWith(original, mappings[0].0) then
      original[..|original| - |mappings[0].0|] + mappings[0].1
    else MapSuffix(original, mappings[1..])
  }

  /** The Yahoo spelling of an upper-cased symbol. */
  function YahooOf(original: string): string {
    MapSuffix(original, SymbolMappings)
  }

  lemma MappingsUpper()
    ensures forall i :: 0 <= i < |SymbolMappings| ==> Upper(SymbolMappings[i].0) == SymbolMappings[i].0
    ensures Upper("-WT") == "-WT"
  {
    assert Upper("/WS") == "/WS";
    assert Upper("/W") == "/W";
    assert Upper(".WS") == ".WS";
    assert Upper(".W") == ".W";
    assert Upper("-WT") == "-WT";
  }

  /** `normalize_symbol(symbol)`: the Yahoo spelling and the upper-cased
      original. */
  method NormalizeSymbol(symbol: string) returns (yahoo: string, original: string)
    ensures original == Upper(symbol)
    ensures yahoo == YahooOf(original)
  {
    MappingsUpper();
    original := Upper(symbol);
    yahoo := original;
    var i := 0;
    while i < |SymbolMappings|
      invariant 0 <= i <= |SymbolMappings|
      invariant yahoo == original
      invariant MapSuffix(original, SymbolMappings[i..]) == YahooOf(original)
    {
      var (suffix, yahooSuffix) := SymbolMappings[i];
      assert SymbolMappings[i..][0] == (suffix, yahooSuffix);
      assert SymbolMappings[i..][1..] == SymbolMappings[i + 1..];
      if EndsWith(original, Upper(suffix)) {
        yahoo := original[..|original| - |suffix|] + yahooSuffix;
        break;
      }
      i := i + 1;
    }
  }

  /** `s` ends with the three characters of `t`. */
  lemma EndsWith3(s: string, t: string)
    requires |t| == 3
    ensures EndsWith(s, t) <==>
              |s| >= 3 && s[|s| - 3] == t[0] && s[|s| - 2] == t[1] && s[|s| - 1] == t[2]
  {
    if |s| >= 3 && s[|s| - 3] == t[0] && s[|s| - 2] == t[1] && s[|s| - 1] == t[2] {
      assert s[|s| - 3..] == t;
    }
  }

  /** `s` ends with the two characters of `t`. */
  lemma EndsWith2(s: string, t: string)
    requires |t| == 2
    ensures EndsWith(s, t) <==> |s| >= 2 && s[|s| - 2] == t[0] && s[|s| - 1] == t[1]
  {
    if |s| >= 2 && s[|s| - 2] == t[0] && s[|s| - 1] == t[1] {
      assert s[|s| - 2..] == t;
    }
  }

  /** The four suffixes, character by character. */
  lemma SuffixChars(o: string)
    ensures EndsWith(o, "/WS") <==> |o| >= 3 && o[|o| - 3] == '/' && o[|o| - 2] == 'W' && o[|o| - 1] == 'S'
    ensures EndsWith(o, ".WS") <==> |o| >= 3 && o[|o| - 3] == '.' && o[|o| - 2] == 'W' && o[|o| - 1] == 'S'
    ensures EndsWith(o, "/W") <==> |o| >= 2 && o[|o| - 2] == '/' && o[|o| - 1] == 'W'
    ensures EndsWith(o, ".W") <==> |o| >= 2 && o[|o| - 2] == '.' && o[|o| - 1] == 'W'
  {
    EndsWith3(o, "/WS");
    EndsWith3(o, ".WS");
    EndsWith2(o, "/W");
    EndsWith2(o, ".W");
  }

  /** `YahooOf` spelled out over the four mappings, tried in order. */
  lemma YahooCases(o: string)
    ensures YahooOf(o) ==
      if EndsWith(o, "/WS") then o[..|o| - 3] + "-WT"
      else if EndsWith(o, "/W") then o[..|o| - 2] + "-WT"
      else if EndsWith(o, ".WS") then o[..|o| - 3] + "-WT"
      else if EndsWith(o, ".W") then o[..|o| - 2] + "-WT"
      else o
  {
    SuffixChars(o);
    var m0 := SymbolMappings;
    var m1 := m0[1..];
    var m2 := m1[1..];
    var m3 := m2[1..];
    assert m0[0] == ("/WS", "-WT") && m1[0] == ("/W", "-WT");
    assert m2[0] == (".WS", "-WT") && m3[0] == (".W", "-WT");
    assert m3[1..] == [];
    assert MapSuffix(o, m3) == if EndsWith(o, ".W") then o[..|o| - 2] + "-WT" else o;
    assert MapSuffix(o, m2) == if EndsWith(o, ".WS") then o[..|o| - 3] + "-WT" else MapSuffix(o, m3);
    assert MapSuffix(o, m1) == if EndsWith(o, "/W") then o[..|o| - 2] + "-WT" else MapSuffix(o, m2);
  }

  /** No symbol ends with two of the mapped suffixes, so the order in which
      they are tried does not matter. */
  lemma SuffixesExclusive(s: string)
    ensures forall i, j :: 0 <= i < j < |SymbolMappings| && EndsWith(s, SymbolMappings[i].0) ==>
              !EndsWith(s, SymbolMappings[j].0)
  {
    SuffixChars(s);
    var m := SymbolMappings;
    assert |m| == 4 && m[0].0 == "/WS" && m[1].0 == "/W" && m[2].0 == ".WS" && m[3].0 == ".W";
    assert !(EndsWith(s, "/WS") && EndsWith(s, "/W"));
    assert !(EndsWith(s, "/WS") && EndsWith(s, ".WS"));
    assert !(EndsWith(s, "/WS") && EndsWith(s, ".W"));
    assert !(EndsWith(s, "/W") && EndsWith(s, ".WS"));
    assert !(EndsWith(s, "/W") && EndsWith(s, ".W"));
    assert !(EndsWith(s, ".WS") && EndsWith(s, ".W"));
    forall i, j | 0 <= i < j < |m| && EndsWith(s, m[i].0) ensures !EndsWith(s, m[j].0) {
      if i == 0 {
        assert j == 1 || j == 2 || j == 3;
      } else if i == 1 {
        assert j == 2 || j == 3;
      } else {
        assert i == 2 && j == 3;
      }
    }
  }

  /** A Yahoo spelling is already normal: normalising it again, upper-casing
      included, changes nothing. */
  lemma YahooIdempotent(symbol: string)
    ensures Upper(YahooOf(Upper(symbol))) == YahooOf(Upper(symbol))
    ensures YahooOf(YahooOf(Upper(symbol))) == YahooOf(Upper(symbol))
  {
    var o := Upper(symbol);
    UpperIdempotent(symbol);
    var base := YahooBase(o);
    if YahooOf(o) != o {
      assert forall i :: 0 <= i < |base| ==> base[i] == o[i];
      assert Upper(base) == base;
      UpperConcat(base, "-WT");
      MappingsUpper();
      WarrantFixed(base);
    }
  }

  /** A rewritten symbol is a prefix of the original followed by "-WT". */
  lemma YahooBase(o: string) returns (base: string)
    ensures YahooOf(o) == o || (YahooOf(o) == base + "-WT" && |base| <= |o| && base == o[..|base|])
  {
    YahooCases(o);
    base := if EndsWith(o, "/WS") || EndsWith(o, ".WS") then o[..|o| - 3]
            else if |o| >= 2 then o[..|o| - 2] else o;
  }

  /** Nothing ending in "-WT" is rewritten. */
  lemma WarrantFixed(base: string)
    ensures YahooOf(base + "-WT") == base + "-WT"
  {
    var y := base + "-WT";
    YahooCases(y);
    SuffixChars(y);
    assert y[|y| - 1] == 'T';
  }

  /** `normalize_symbol("IONQ/WS") == ("IONQ-WT", "IONQ/WS")` */
  lemma WarrantExample()
    ensures YahooOf("IONQ/WS") == "IONQ-WT"
    ensures YahooOf("AAPL") == "AAPL"
  {
    YahooCases("IONQ/WS");
    SuffixChars("IONQ/WS");
    YahooCases("AAPL");
    SuffixChars("AAPL");
    assert "IONQ/WS"[..4] == "IONQ";
  }

  // ---------------------------------------------------------------------
  // Cache rows and fetch oracles
  // ---------------------------------------------------------------------

  /** `settings.price_cache_seconds` */
  const DefaultCacheSeconds: int := 60

  /** 52-week data is kept for at least four hours. */
  const WeekDataMinTtl: int := 4 * 3600

  datatype PriceRow = PriceRow(price: real, fetchedAt: int)

  datatype IndicatorKey = IndicatorKey(symbol: string, indicator: string, timeframe: string)

  datatype IndicatorRow = IndicatorRow(value: real, fetchedAt: int)

  datatype WeekRow = WeekRow(high: Option<real>, low: Option<real>, fetchedAt: int)

  /** A fetched price history: its number of rows and the last values of the
      smoothed average gain and loss (None where pandas gives NaN). */
  datatype History = History(closes: nat, avgGain: Option<real>, avgLoss: Option<real>)

  /** Averages of non-negative changes are non-negative. */
  predicate ValidHistory(h: History) {
    (h.avgGain.Some? ==> h.avgGain.value >= 0.0) && (h.avgLoss.Some? ==> h.avgLoss.value >= 0.0)
  }

  /** A row fetched at `fetchedAt` is still usable at `now`. */
  predicate Fresh(fetchedAt: int, now: int, ttl: int) {
    fetchedAt >= now - ttl
  }

  /** `cache_seconds or settings.price_cache_seconds` */
  function EffectiveTtl(cacheSeconds: Option<int>): (r: int)
    ensures r != 0
    ensures cacheSeconds.Some? && cacheSeconds.value != 0 ==> r == cacheSeconds.value
  {
    if cacheSeconds.None? || cacheSeconds.value == 0 then DefaultCacheSeconds else cacheSeconds.value
  }

  // ---------------------------------------------------------------------
  // Prices
  // ---------------------------------------------------------------------

  /** What `get_price` returns against cache `cache`. */
  function PriceLookup(cache: map<string, PriceRow>, ttl: int, symbol: string, now: int,
                       quotes: map<string, real>): Option<real>
  {
    var original := Upper(symbol);
    var yahoo := YahooOf(original);
    if original in cache && Fresh(cache[original].fetchedAt, now, ttl) then Some(cache[original].price)
    else if yahoo in quotes then Some(quotes[yahoo])
    else None
  }

  /** The price cache after `get_price`. */
  function PriceStore(cache: map<string, PriceRow>, ttl: int, symbol: string, now: int,
                      quotes: map<string, real>): map<string, PriceRow>
  {
    var original := Upper(symbol);
    var yahoo := YahooOf(original);
    if original in cache && Fresh(cache[original].fetchedAt, now, ttl) then cache
    else if yahoo in quotes then cache[original := PriceRow(quotes[yahoo], now)]
    else cache
  }

  /** A fresh row is answered without a fetch; otherwise a successful fetch
      of the Yahoo spelling is stored under the original symbol with the
      current time, and a failed one leaves the cache as it was. */
  lemma PriceLookupCases(cache: map<string, PriceRow>, ttl: int, symbol: string, now: int,
                         quotes: map<string, real>)
    ensures var o := Upper(symbol);
      if o in cache && Fresh(cache[o].fetchedAt, now, ttl) then
        PriceLookup(cache, ttl, symbol, now, quotes) == Some(cache[o].price)
        && PriceStore(cache, ttl, symbol, now, quotes) == cache
        && (forall q :: PriceLookup(cache, ttl, symbol, now, q) == Some(cache[o].price))
      else if YahooOf(o) in quotes then
        PriceLookup(cache, ttl, symbol, now, quotes) == Some(quotes[YahooOf(o)])
        && PriceStore(cache, ttl, symbol, now, quotes) == cache[o := PriceRow(quotes[YahooOf(o)], now)]
      else
        PriceLookup(cache, ttl, symbol, now, quotes) == None
        && PriceStore(cache, ttl, symbol, now, quotes) == cache
  {
  }

  /** Once a price has been found, a second call at the same moment is
      answered from the cache, whatever the market would now say. */
  lemma SecondLookupHitsCache(cache: map<string, PriceRow>, ttl: int, symbol: string, now: int,
                              quotes: map<string, real>, quotes': map<string, real>)
    requires ttl >= 0
    requires PriceLookup(cache, ttl, symbol, now, quotes).Some?
    ensures var c := PriceStore(cache, ttl, symbol, now, quotes);
      Upper(symbol) in c && Fresh(c[Upper(symbol)].fetchedAt, now, ttl)
      && PriceLookup(c, ttl, symbol, now, quotes') == PriceLookup(cache, ttl, symbol, now, quotes)
  {
  }

  /** A lookup depends on the symbol only through its upper-case form. */
  lemma PriceLookupUpper(cache: map<string, PriceRow>, ttl: int, symbol: string, now: int,
                         quotes: map<string, real>)
    ensures PriceLookup(cache, ttl, Upper(symbol), now, quotes) == PriceLookup(cache, ttl, symbol, now, quotes)
  {
    UpperIdempotent(symbol);
  }

  /** Storing one symbol's price does not change what any lookup at the same
      moment returns. */
  lemma PriceLookupStable(cache: map<string, PriceRow>, ttl: int, stored: string, symbol: string,
                          now: int, quotes: map<string, real>)
    ensures PriceLookup(PriceStore(cache, ttl, stored, now, quotes), ttl, symbol, now, quotes)
         == PriceLookup(cache, ttl, symbol, now, quotes)
  {
  }

  /** `get_prices(symbols)` run from cache `cache`: the successful lookups,
      keyed by upper-cased symbol. */
  function BatchPrices(cache: map<string, PriceRow>, ttl: int, symbols: seq<string>, now: int,
                       quotes: map<string, real>): map<string, real>
  {
    CollectMap(s => Upper(s), s => PriceLookup(cache, ttl, s, now, quotes), symbols)
  }

  /** The batch holds exactly the requested symbols whose lookup succeeded,
      each with its looked-up price. */
  lemma BatchPricesSpec(cache: map<string, PriceRow>, ttl: int, symbols: seq<string>,
                        now: int, quotes: map<string, real>)
    ensures forall u :: u in BatchPrices(cache, ttl, symbols, now, quotes) <==>
              exists k :: 0 <= k < |symbols| && Upper(symbols[k]) == u
                          && PriceLookup(cache, ttl, symbols[k], now, quotes).Some?
    ensures forall u :: u in BatchPrices(cache, ttl, symbols, now, quotes) ==>
              Some(BatchPrices(cache, ttl, symbols, now, quotes)[u]) == PriceLookup(cache, ttl, u, now, quotes)
  {
    var key := s => Upper(s);
    var f := s => PriceLookup(cache, ttl, s, now, quotes);
    var m := BatchPrices(cache, ttl, symbols, now, quotes);
    forall u ensures (u in m <==> exists k :: 0 <= k < |symbols| && Upper(symbols[k]) == u
                                              && PriceLookup(cache, ttl, symbols[k], now, quotes).Some?)
                     && (u in m ==> Some(m[u]) == PriceLookup(cache, ttl, u, now, quotes))
    {
      CollectMapAt(key, f, symbols, u);
      if u in m {
        var k :| 0 <= k < |symbols| && key(symbols[k]) == u && f(symbols[k]) == Some(m[u]);
        PriceLookupUpper(cache, ttl, symbols[k], now, quotes);
      }
    }
  }

  /** The price cache after `get_prices(symbols)`: each symbol's
      `get_price` applied to the cache in turn. */
  function BatchStore(cache: map<string, PriceRow>, ttl: int, symbols: seq<string>, now: int,
                      quotes: map<string, real>): map<string, PriceRow>
  {
    if symbols == [] then cache
    else
      var n := |symbols| - 1;
      PriceStore(BatchStore(cache, ttl, symbols[..n], now, quotes), ttl, symbols[n], now, quotes)
  }

  /** After the batch, no lookup at the same moment answers differently;
      every requested symbol that was found has a fresh row holding the
      price it was found at, so a repeated batch is answered from the cache;
      no row is dropped; and only rows of requested symbols change. */
  lemma {:induction false} BatchStoreSpec(cache: map<string, PriceRow>, ttl: int, symbols: seq<string>,
                                          now: int, quotes: map<string, real>)
    requires ttl >= 0
    ensures var c := BatchStore(cache, ttl, symbols, now, quotes);
      && (forall s :: PriceLookup(c, ttl, s, now, quotes) == PriceLookup(cache, ttl, s, now, quotes))
      && (forall k :: 0 <= k < |symbols| && PriceLookup(cache, ttl, symbols[k], now, quotes).Some? ==>
            Upper(symbols[k]) in c && Fresh(c[Upper(symbols[k])].fetchedAt, now, ttl)
            && Some(c[Upper(symbols[k])].price) == PriceLookup(cache, ttl, symbols[k], now, quotes))
      && (forall u :: u in cache ==> u in c)
      && (forall u :: u in c && (u !in cache || c[u] != cache[u]) ==>
            exists k :: 0 <= k < |symbols| && Upper(symbols[k]) == u)
  {
    if symbols != [] {
      var n := |symbols| - 1;
      var init := symbols[..n];
      var b := BatchStore(cache, ttl, init, now, quotes);
      var c := BatchStore(cache, ttl, symbols, now, quotes);
      BatchStoreSpec(cache, ttl, init, now, quotes);
      assert c == PriceStore(b, ttl, symbols[n], now, quotes);
      forall s ensures PriceLookup(c, ttl, s, now, quotes) == PriceLookup(cache, ttl, s, now, quotes) {
        PriceLookupStable(b, ttl, symbols[n], s, now, quotes);
      }
      forall k | 0 <= k < |symbols| && PriceLookup(cache, ttl, symbols[k], now, quotes).Some?
        ensures Upper(symbols[k]) in c && Fresh(c[Upper(symbols[k])].fetchedAt, now, ttl)
                && Some(c[Upper(symbols[k])].price) == PriceLookup(cache, ttl, symbols[k], now, quotes)
      {
        if k < n {
          assert init[k] == symbols[k];
        } else {
          SecondLookupHitsCache(b, ttl, symbols[n], now, quotes, quotes);
        }
      }
      forall u | u in c && (u !in cache || c[u] != cache[u])
        ensures exists k :: 0 <= k < |symbols| && Upper(symbols[k]) == u
      {
        if u != Upper(symbols[n]) {
          var k :| 0 <= k < |init| && Upper(init[k]) == u;
          assert symbols[k] == init[k];
        }
      }
    }
  }

  // ---------------------------------------------------------------------
  // RSI
  // ---------------------------------------------------------------------

  /** `_calculate_rsi`, from the row count and the last smoothed averages;
      None also stands for the ValueError pandas raises for a period below 1
      (a negative centre of mass). */
  function CalculateRsi(closes: nat, period: int, avgGain: Option<real>, avgLoss: Option<real>)
    : (r: Option<real>)
    requires avgGain.Some? ==> avgGain.value >= 0.0
    requires avgLoss.Some? ==> avgLoss.value >= 0.0
    ensures r.None? <==> closes < period + 1 || period < 1 || avgGain.None? || avgLoss.None?
    ensures r.Some? ==> 0.0 <= r.value <= 100.0
  {
    if closes < period + 1 then None
    else if period < 1 then None
    else if avgGain.None? || avgLoss.None? then None
    else if avgLoss.value == 0.0 then Some(if avgGain.value > 0.0 then 100.0 else 50.0)
    else
      var rs := avgGain.value / avgLoss.value;
      var rsi := 100.0 - 100.0 / (1.0 + rs);
      Some(Clamp(rsi, 0.0, 100.0))
  }

  function Clamp(x: real, lo: real, hi: real): (r: real)
    requires lo <= hi
    ensures lo <= r <= hi
    ensures lo <= x <= hi ==> r == x
  {
    if x < lo then lo else if x > hi then hi else x
  }

  /** With losses, RSI is the share of gain in the total movement, so the
      clamp never bites; without losses it is 100 on a gain and 50 on no
      movement. */
  lemma RsiValue(closes: nat, period: int, gain: real, loss: real)
    requires closes >= period + 1 && period >= 1 && gain >= 0.0 && loss >= 0.0
    ensures loss == 0.0 ==> CalculateRsi(closes, period, Some(gain), Some(loss))
                              == Some(if gain > 0.0 then 100.0 else 50.0)
    ensures loss > 0.0 ==> CalculateRsi(closes, period, Some(gain), Some(loss))
                             == Some(100.0 * gain / (gain + loss))
  {
    if loss > 0.0 {
      RsiAlgebra(gain, loss);
    }
  }

  lemma Cancel(y: real, z: real, d: real)
    requires d > 0.0 && y * d == z * d
    ensures y == z
  {
    assert (y - z) * d == 0.0;
  }

  /** `100 - 100 / (1 + gain/loss)` is `100 * gain / (gain + loss)`, which
      lies in [0, 100]. */
  lemma RsiAlgebra(g: real, l: real)
    requires l > 0.0 && g >= 0.0
    ensures 100.0 - 100.0 / (1.0 + g / l) == 100.0 * g / (g + l)
    ensures 0.0 <= 100.0 * g / (g + l) <= 100.0
  {
    var rs := g / l;
    var a := 1.0 + rs;
    var d := g + l;
    assert rs * l == g;
    assert a * l == d;
    var x := 100.0 / a;
    assert x * a == 100.0;
    assert x * d == 100.0 * l;
    assert (100.0 - x) * d == 100.0 * g;
    var z := 100.0 * g / d;
    assert z * d == 100.0 * g;
    Cancel(100.0 - x, z, d);
    assert (100.0 - z) * d == 100.0 * l;
  }

  /** `f"rsi_{period}"` */
  function RsiIndicator(period: int): string {
    "rsi_" + IntToString(period)
  }

  /** What `get_rsi` returns against cache `cache`; `histories` is keyed by
      (Yahoo symbol, timeframe). */
  function RsiLookup(cache: map<IndicatorKey, IndicatorRow>, ttl: int, symbol: string, period: int,
                     timeframe: string, now: int, histories: map<(string, string), History>)
    : Option<real>
    requires forall k :: k in histories ==> ValidHistory(histories[k])
  {
    var original := Upper(symbol);
    var key := IndicatorKey(original, RsiIndicator(period), timeframe);
    if key in cache && Fresh(cache[key].fetchedAt, now, ttl) then Some(cache[key].value)
    else FetchRsi(YahooOf(original), period, timeframe, histories)
  }

  /** The fetch-and-compute branch of `get_rsi`. */
  function FetchRsi(yahoo: string, period: int, timeframe: string,
                    histories: map<(string, string), History>): (r: Option<real>)
    requires forall k :: k in histories ==> ValidHistory(histories[k])
    ensures r.Some? ==> 0.0 <= r.value <= 100.0
  {
    if (yahoo, timeframe) !in histories then None
    else
      var h := histories[(yahoo, timeframe)];
      assert ValidHistory(h);
      if h.closes == 0 || h.closes < period + 1 then None
      else CalculateRsi(h.closes, period, h.avgGain, h.avgLoss)
  }

  /** The indicator cache after `get_rsi`: the computed value is stored, by
      update or insert, under (symbol, "rsi_{period}", timeframe). */
  function RsiStore(cache: map<IndicatorKey, IndicatorRow>, ttl: int, symbol: string, period: int,
                    timeframe: string, now: int, histories: map<(string, string), History>)
    : map<IndicatorKey, IndicatorRow>
    requires forall k :: k in histories ==> ValidHistory(histories[k])
  {
    var original := Upper(symbol);
    var key := IndicatorKey(original, RsiIndicator(period), timeframe);
    if key in cache && Fresh(cache[key].fetchedAt, now, ttl) then cache
    else
      match FetchRsi(YahooOf(original), period, timeframe, histories)
      case Some(v) => cache[key := IndicatorRow(v, now)]
      case None => cache
  }

  /** Every RSI `get_rsi` returns lies in [0, 100]; after a fetched value the
      cache holds exactly that value, stamped now, under the rule's key and
      nothing else changed; a cache hit or a failed fetch changes nothing. */
  lemma RsiLookupSpec(cache: map<IndicatorKey, IndicatorRow>, ttl: int, symbol: string, period: int,
                      timeframe: string, now: int, histories: map<(string, string), History>)
    requires forall k :: k in histories ==> ValidHistory(histories[k])
    requires forall k :: k in cache ==> 0.0 <= cache[k].value <= 100.0
    ensures var r := RsiLookup(cache, ttl, symbol, period, timeframe, now, histories);
      var c := RsiStore(cache, ttl, symbol, period, timeframe, now, histories);
      var key := IndicatorKey(Upper(symbol), RsiIndicator(period), timeframe);
      (r.Some? ==> 0.0 <= r.value <= 100.0)
      && (forall k :: k in c ==> 0.0 <= c[k].value <= 100.0)
      && (r.Some? ==> key in c && c[key].value == r.value
                      && (forall k :: k != key ==> (k in c <==> k in cache)))
      && (!(key in cache && Fresh(cache[key].fetchedAt, now, ttl)) && r.Some? ==>
            c == cache[key := IndicatorRow(r.value, now)])
      && (r.None? ==> c == cache)
  {
  }

  // ---------------------------------------------------------------------
  // 52-week range
  // ---------------------------------------------------------------------

  /** What `get_52_week_data` returns against cache `cache`; `weeks` is keyed
      by the upper-cased symbol (this lookup does not normalise it). */
  function WeekLookup(cache: map<string, WeekRow>, ttl: int, symbol: string, now: int,
                      weeks: map<string, (Option<real>, Option<real>)>): Option<(real, real)>
  {
    var s := Upper(symbol);
    var t := if ttl >= WeekDataMinTtl then ttl else WeekDataMinTtl;
    if s in cache && Fresh(cache[s].fetchedAt, now, t) && cache[s].high.Some? && cache[s].low.Some? then
      Some((cache[s].high.value, cache[s].low.value))
    else if s !in weeks || weeks[s].0.None? || weeks[s].1.None? then None
    else Some((weeks[s].0.value, weeks[s].1.value))
  }

  /** The 52-week cache after `get_52_week_data`. */
  function WeekStore(cache: map<string, WeekRow>, ttl: int, symbol: string, now: int,
                     weeks: map<string, (Option<real>, Option<real>)>): map<string, WeekRow>
  {
    var s := Upper(symbol);
    var t := if ttl >= WeekDataMinTtl then ttl else WeekDataMinTtl;
    if s in cache && Fresh(cache[s].fetchedAt, now, t) && cache[s].high.Some? && cache[s].low.Some? then
      cache
    else if s !in weeks || weeks[s].0.None? || weeks[s].1.None? then cache
    else cache[s := WeekRow(weeks[s].0, weeks[s].1, now)]
  }

  /** A complete row younger than four hours is a hit whatever the price TTL;
      an incomplete or stale row is refetched; a fetch missing either bound
      returns None and stores nothing. */
  lemma WeekLookupSpec(cache: map<string, WeekRow>, ttl: int, symbol: string, now: int,
                       weeks: map<string, (Option<real>, Option<real>)>)
    ensures var s := Upper(symbol);
      s in cache && cache[s].fetchedAt >= now - WeekDataMinTtl
      && cache[s].high.Some? && cache[s].low.Some? ==>
        WeekLookup(cache, ttl, symbol, now, weeks) == Some((cache[s].high.value, cache[s].low.value))
        && WeekStore(cache, ttl, symbol, now, weeks) == cache
    ensures var s := Upper(symbol);
      s in cache && (cache[s].high.None? || cache[s].low.None?) ==>
        WeekLookup(cache, ttl, symbol, now, weeks)
          == (if s in weeks && weeks[s].0.Some? && weeks[s].1.Some?
              then Some((weeks[s].0.value, weeks[s].1.value)) else None)
    ensures WeekLookup(cache, ttl, symbol, now, weeks).None? ==>
              WeekStore(cache, ttl, symbol, now, weeks) == cache
    ensures var c := WeekStore(cache, ttl, symbol, now, weeks);
      forall k :: k != Upper(symbol) ==> (k in c <==> k in cache) && (k in c ==> c[k] == cache[k])
  {
  }

  // ---------------------------------------------------------------------
  // Indicator names
  // ---------------------------------------------------------------------

  /** The RSI period `get_indicator` asks for: "rsi" and "rsi_14" give 14,
      "rsi_N" gives N (the text up to the next underscore, read by `int`),
      anything else nothing. */
  function IndicatorPeriod(name: string): Option<int> {
    var n := Lower(name);
    if n == "rsi" || n == "rsi_14" then Some(14)
    else if StartsWith(n, "rsi_") then
      var rest := n[4..];
      ParseInt(rest[..IndexOf(rest, '_')])
    else None
  }

  /** Indicator names are case-insensitive. */
  lemma IndicatorCaseInsensitive(name: string)
    ensures IndicatorPeriod(Upper(name)) == IndicatorPeriod(Lower(name)) == IndicatorPeriod(name)
  {
    LowerOfCase(name);
  }

  /** A name that does not start with "rsi" is unknown. */
  lemma IndicatorUnknown(name: string)
    ensures !StartsWith(Lower(name), "rsi") ==> IndicatorPeriod(name) == None
  {
  }

  /** "rsi_N" names the period N, for every natural N. */
  lemma IndicatorRoundTrip(n: nat)
    ensures IndicatorPeriod("rsi_" + NatToString(n)) == Some(n)
  {
    var s := "rsi_" + NatToString(n);
    var digits := NatToString(n);
    assert s[..4] == "rsi_";
    LowerOfDigits(digits);
    LowerConcat("rsi_", digits);
    assert Lower("rsi_") == "rsi_";
    assert s[4..] == digits;
    assert IndexOf(digits, '_') == |digits| by {
      IndexOfAbsent(digits, '_');
    }
    assert digits[..|digits|] == digits;
    IntRoundTrip(n);
    assert IntToString(n) == digits;
  }

  lemma LowerOfCase(s: string)
    ensures Lower(Upper(s)) == Lower(s) && Lower(Lower(s)) == Lower(s)
  {
  }

  lemma LowerConcat(a: string, b: string)
    ensures Lower(a + b) == Lower(a) + Lower(b)
  {
  }

  lemma LowerOfDigits(s: string)
    requires AllDigits(s)
    ensures Lower(s) == s
  {
  }

  lemma IndexOfAbsent(s: string, c: char)
    requires AllDigits(s) && !IsDigit(c)
    ensures IndexOf(s, c) == |s|
  {
  }

  /** `get_indicator("rsi")`, `get_indicator("RSI_14")` and
      `get_indicator("rsi_7")` */
  lemma IndicatorExamples()
    ensures IndicatorPeriod("rsi") == Some(14)
    ensures IndicatorPeriod("RSI_14") == Some(14)
    ensures IndicatorPeriod("rsi_") == None
    ensures IndicatorPeriod("macd") == None
  {
    assert Lower("RSI_14") == "rsi_14";
    assert Lower("rsi_") == "rsi_";
    assert "rsi_"[4..] == "";
    assert Lower("macd") == "macd";
    assert !StartsWith("macd", "rsi_");
  }

  // ---------------------------------------------------------------------
  // The provider and its cache tables
  // ---------------------------------------------------------------------

  /** `MarketDataProvider` together with the three cache tables it reads and
      writes. */
  class MarketDataProvider {
    const cacheSeconds: int
    var prices: map<string, PriceRow>
    var indicators: map<IndicatorKey, IndicatorRow>
    var weekData: map<string, WeekRow>

    /** `MarketDataProvider(cache_seconds)` over empty caches. */
    constructor(cacheSecondsArg: Option<int>)
      ensures cacheSeconds == EffectiveTtl(cacheSecondsArg)
      ensures prices == map[] && indicators == map[] && weekData == map[]
    {
      cacheSeconds := EffectiveTtl(cacheSecondsArg);
      prices := map[];
      indicators := map[];
      weekData := map[];
    }

    /** `get_price(symbol)` */
    method GetPrice(symbol: string, now: int, quotes: map<string, real>) returns (r: Option<real>)
      modifies this
      ensures r == PriceLookup(old(prices), cacheSeconds, symbol, now, quotes)
      ensures prices == PriceStore(old(prices), cacheSeconds, symbol, now, quotes)
      ensures indicators == old(indicators) && weekData == old(weekData)
    {
      var yahoo, original := NormalizeSymbol(symbol);
      if original in prices && Fresh(prices[original].fetchedAt, now, cacheSeconds) {
        return Some(prices[original].price);
      }
      if yahoo !in quotes {
        return None;
      }
      var price := quotes[yahoo];
      prices := prices[original := PriceRow(price, now)];
      return Some(price);
    }

    /** `get_prices(symbols)` */
    method GetPrices(symbols: seq<string>, now: int, quotes: map<string, real>)
      returns (result: map<string, real>)
      modifies this
      ensures result == BatchPrices(old(prices), cacheSeconds, symbols, now, quotes)
      ensures prices == BatchStore(old(prices), cacheSeconds, symbols, now, quotes)
      ensures forall s :: PriceLookup(prices, cacheSeconds, s, now, quotes)
                       == PriceLookup(old(prices), cacheSeconds, s, now, quotes)
      ensures indicators == old(indicators) && weekData == old(weekData)
    {
      result := map[];
      for i := 0 to |symbols|
        invariant result == BatchPrices(old(prices), cacheSeconds, symbols[..i], now, quotes)
        invariant prices == BatchStore(old(prices), cacheSeconds, symbols[..i], now, quotes)
        invariant forall s :: PriceLookup(prices, cacheSeconds, s, now, quotes)
                           == PriceLookup(old(prices), cacheSeconds, s, now, quotes)
        invariant indicators == old(indicators) && weekData == old(weekData)
      {
        var symbol := symbols[i];
        assert symbols[..i + 1][..i] == symbols[..i];
        CollectMapSnoc(s => Upper(s), s => PriceLookup(old(prices), cacheSeconds, s, now, quotes), symbols, i);
        ghost var before := prices;
        var price := GetPrice(symbol, now, quotes);
        forall s ensures PriceLookup(prices, cacheSeconds, s, now, quotes)
                      == PriceLookup(before, cacheSeconds, s, now, quotes)
        {
          PriceLookupStable(before, cacheSeconds, symbol, s, now, quotes);
        }
        if price.Some? {
          result := result[Upper(symbol) := price.value];
        }
      }
      assert symbols[..|symbols|] == symbols;
    }

    /** `get_rsi(symbol, period, timeframe)` */
    method GetRsi(symbol: string, period: int, timeframe: string, now: int,
                  histories: map<(string, string), History>)
      returns (r: Option<real>)
      requires forall k :: k in histories ==> ValidHistory(histories[k])
      modifies this
      ensures r == RsiLookup(old(indicators), cacheSeconds, symbol, period, timeframe, now, histories)
      ensures indicators == RsiStore(old(indicators), cacheSeconds, symbol, period, timeframe, now, histories)
      ensures prices == old(prices) && weekData == old(weekData)
    {
      var yahoo, original := NormalizeSymbol(symbol);
      var key := IndicatorKey(original, RsiIndicator(period), timeframe);
      if key in indicators && Fresh(indicators[key].fetchedAt, now, cacheSeconds) {
        return Some(indicators[key].value);
      }
      if (yahoo, timeframe) !in histories {
        return None;
      }
      var hist := histories[(yahoo, timeframe)];
      if hist.closes == 0 || hist.closes < period + 1 {
        return None;
      }
      var value := CalculateRsi(hist.closes, period, hist.avgGain, hist.avgLoss);
      if value.None? {
        return None;
      }
      // update the stale row or insert a new one
      indicators := indicators[key := IndicatorRow(value.value, now)];
      return value;
    }

    /** `get_52_week_data(symbol)` */
    method Get52WeekData(symbol: string, now: int, weeks: map<string, (Option<real>, Option<real>)>)
      returns (r: Option<(real, real)>)
      modifies this
      ensures r == WeekLookup(old(weekData), cacheSeconds, symbol, now, weeks)
      ensures weekData == WeekStore(old(weekData), cacheSeconds, symbol, now, weeks)
      ensures prices == old(prices) && indicators == old(indicators)
    {
      var s := Upper(symbol);
      var ttl := if cacheSeconds >= WeekDataMinTtl then cacheSeconds else WeekDataMinTtl;
      if s in weekData && Fresh(weekData[s].fetchedAt, now, ttl) {
        var row := weekData[s];
        if row.high.Some? && row.low.Some? {
          return Some((row.high.value, row.low.value));
        }
      }
      if s !in weeks {
        return None;
      }
      var (high, low) := weeks[s];
      if high.None? || low.None? {
        return None;
      }
      weekData := weekData[s := WeekRow(high, low, now)];
      return Some((high.value, low.value));
    }

    /** `get_indicator(symbol, indicator_type, timeframe)` */
    method GetIndicator(symbol: string, indicatorType: string, timeframe: string, now: int,
                        histories: map<(string, string), History>)
      returns (r: Option<real>)
      requires forall k :: k in histories ==> ValidHistory(histories[k])
      modifies this
      ensures IndicatorPeriod(indicatorType).None? ==> r == None && indicators == old(indicators)
      ensures IndicatorPeriod(indicatorType).Some? ==>
                var p := IndicatorPeriod(indicatorType).value;
                r == RsiLookup(old(indicators), cacheSeconds, symbol, p, timeframe, now, histories)
                && indicators == RsiStore(old(indicators), cacheSeconds, symbol, p, timeframe, now, histories)
      ensures prices == old(prices) && weekData == old(weekData)
    {
      var period := IndicatorPeriod(indicatorType);
      if period.None? {
        return None;
      }
      r := GetRsi(symbol, period.value, timeframe, now, histories);
    }
  }
}
