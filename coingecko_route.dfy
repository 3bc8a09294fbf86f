/** The CoinGecko price route: resolving a coin name against the market
    list (`findCoinMatch`), building the response map (`POST`) and keeping
    the last good market list as a fallback (`fetchAllMarketData`). The
    HTTP request is abstracted to its outcome. */
module CoingeckoRoute {
  import opened Collections
  import opened Text

  /** One element of the `/coins/markets` response. */
  datatype MarketCoin = MarketCoin(
    id: string,
    symbol: string,
    name: string,
    currentPrice: int,
    marketCap: int,
    totalVolume: int,
    priceChange24h: int,
    circulatingSupply: Option<int>)

  /** `CoinData` as the route returns it. */
  datatype CoinData = CoinData(
    id: string,
    name: string,
    symbol: string,
    price: int,
    marketCap: int,
    volume24h: int,
    percentChange24h: int,
    circulatingSupply: int)

  // ---- name resolution ----

  predicate AlnumLower(c: char) {
    'a' <= c <= 'z' || '0' <= c <= '9'
  }

  function KeepAlnum(): char -> bool {
    (c: char) => AlnumLower(c)
  }

  /** `toLowerCase()` then `replace(/[^a-z0-9]/g, "")`. */
  function Normalise(s: string): string {
    Filter(ToLower(s), KeepAlnum())
  }

  /** The normalised name holds only lower-case ASCII letters and digits,
      normalising twice changes nothing, and a name already of that form is
      its own normalisation. */
  lemma NormaliseSpec(s: string)
    ensures forall c :: c in Normalise(s) ==> AlnumLower(c)
    ensures Normalise(Normalise(s)) == Normalise(s)
    ensures (forall c :: c in s ==> AlnumLower(c)) ==> Normalise(s) == s
  {
    var n := Normalise(s);
    assert forall c :: c in n ==> AlnumLower(c) by {
      forall c | c in n ensures AlnumLower(c) {
        assert KeepAlnum()(c);
      }
    }
    AlnumIsNormal(n);
    if forall c :: c in s ==> AlnumLower(c) {
      AlnumIsNormal(s);
    }
  }

  lemma AlnumIsNormal(s: string)
    requires forall c :: c in s ==> AlnumLower(c)
    ensures Normalise(s) == s
  {
    assert ToLower(s) == s;
    FilterAllPass(s, KeepAlnum());
  }

  /** `coin.id.replace(/-/g, "")`. */
  function StripHyphens(s: string): string {
    Filter(s, NotEqualTo('-'))
  }

  /** The direct mappings for major coins. */
  const Aliases: map<string, string> := map[
    "bitcoin" := "bitcoin", "btc" := "bitcoin",
    "ethereum" := "ethereum", "eth" := "ethereum",
    "solana" := "solana", "sol" := "solana",
    "xrp" := "ripple", "ripple" := "ripple",
    "doge" := "dogecoin", "dogecoin" := "dogecoin",
    "cardano" := "cardano", "ada" := "cardano",
    "polkadot" := "polkadot", "dot" := "polkadot",
    "chainlink" := "chainlink", "link" := "chainlink"]

  predicate Exact(c: MarketCoin, n: string) {
    c.id == n || ToLower(c.symbol) == n || StripHyphens(c.id) == n
  }

  predicate Fuzzy(c: MarketCoin, n: string) {
    Contains(c.id, n) || Contains(ToLower(c.symbol), n) || Contains(StripHyphens(c.id), n)
  }

  function HasId(id: string): MarketCoin -> bool {
    (c: MarketCoin) => c.id == id
  }

  function ExactFor(n: string): MarketCoin -> bool {
    (c: MarketCoin) => Exact(c, n)
  }

  function FuzzyFor(n: string): MarketCoin -> bool {
    (c: MarketCoin) => Fuzzy(c, n)
  }

  /** `findCoinMatch`: the alias lookup, then the first exact match, then
      the first substring match. */
  function FindCoinMatch(searchName: string, market: seq<MarketCoin>): Option<MarketCoin> {
    var n := Normalise(searchName);
    var aliased := if n in Aliases then Find(market, HasId(Aliases[n])) else None;
    if aliased.Some? then aliased
    else
      var exact := Find(market, ExactFor(n));
      if exact.Some? then exact else Find(market, FuzzyFor(n))
  }

  /** An exact match is a substring match too. */
  lemma ExactIsFuzzy(c: MarketCoin, n: string)
    requires Exact(c, n)
    ensures Fuzzy(c, n)
  {
    ContainsSelf(n);
  }

  /** An aliased name whose coin is listed resolves to the first coin with
      the mapped id. */
  lemma AliasWins(searchName: string, market: seq<MarketCoin>, i: nat)
    requires Normalise(searchName) in Aliases
    requires i < |market| && market[i].id == Aliases[Normalise(searchName)]
    requires forall j :: 0 <= j < i ==> market[j].id != Aliases[Normalise(searchName)]
    ensures FindCoinMatch(searchName, market) == Some(market[i])
  {
    FindFirst(market, HasId(Aliases[Normalise(searchName)]), i);
  }

  /** Without an alias hit, the first coin matching exactly wins, whatever
      substring matches come before it. */
  lemma ExactWins(searchName: string, market: seq<MarketCoin>, i: nat)
    requires var n := Normalise(searchName);
      n !in Aliases || forall k :: 0 <= k < |market| ==> market[k].id != Aliases[n]
    requires i < |market| && Exact(market[i], Normalise(searchName))
    requires forall j :: 0 <= j < i ==> !Exact(market[j], Normalise(searchName))
    ensures FindCoinMatch(searchName, market) == Some(market[i])
  {
    var n := Normalise(searchName);
    if n in Aliases {
      FindSpec(market, HasId(Aliases[n]));
    }
    FindFirst(market, ExactFor(n), i);
  }

  /** Without an alias hit or an exact match, the first substring match
      wins. */
  lemma FuzzyWins(searchName: string, market: seq<MarketCoin>, i: nat)
    requires var n := Normalise(searchName);
      n !in Aliases || forall k :: 0 <= k < |market| ==> market[k].id != Aliases[n]
    requires forall k :: 0 <= k < |market| ==> !Exact(market[k], Normalise(searchName))
    requires i < |market| && Fuzzy(market[i], Normalise(searchName))
    requires forall j :: 0 <= j < i ==> !Fuzzy(market[j], Normalise(searchName))
    ensures FindCoinMatch(searchName, market) == Some(market[i])
  {
    var n := Normalise(searchName);
    if n in Aliases {
      FindSpec(market, HasId(Aliases[n]));
    }
    FindSpec(market, ExactFor(n));
    FindFirst(market, FuzzyFor(n), i);
  }

  /** A name resolves to nothing exactly when no coin carries its alias's
      id and none matches it as a substring. */
  lemma NoMatch(searchName: string, market: seq<MarketCoin>)
    ensures var n := Normalise(searchName);
      FindCoinMatch(searchName, market).None? <==>
        (n !in Aliases || forall k :: 0 <= k < |market| ==> market[k].id != Aliases[n])
        && forall k :: 0 <= k < |market| ==> !Fuzzy(market[k], n)
  {
    var n := Normalise(searchName);
    if n in Aliases {
      FindSpec(market, HasId(Aliases[n]));
    }
    FindSpec(market, ExactFor(n));
    FindSpec(market, FuzzyFor(n));
    forall k | 0 <= k < |market| && Exact(market[k], n) ensures Fuzzy(market[k], n) {
      ExactIsFuzzy(market[k], n);
    }
  }

  /** The match is always a listed coin. */
  lemma MatchListed(searchName: string, market: seq<MarketCoin>)
    ensures FindCoinMatch(searchName, market).Some? ==> FindCoinMatch(searchName, market).value in market
  {
    var n := Normalise(searchName);
    if n in Aliases {
      FindSpec(market, HasId(Aliases[n]));
    }
    FindSpec(market, ExactFor(n));
    FindSpec(market, FuzzyFor(n));
  }

  /** A name with no letter or digit always resolves when coins are
      listed: to the first coin with an empty id or symbol, and otherwise to
      the first listed coin, since every string contains the empty one. */
  lemma EmptyNameMatchesFirst(searchName: string, market: seq<MarketCoin>)
    requires Normalise(searchName) == "" && |market| > 0
    ensures FindCoinMatch(searchName, market).Some?
    ensures (forall k :: 0 <= k < |market| ==> !Exact(market[k], "")) ==> FindCoinMatch(searchName, market) == Some(market[0])
  {
    assert "" !in Aliases;
    FindSpec(market, ExactFor(""));
    if forall k :: 0 <= k < |market| ==> !Exact(market[k], "") {
      ContainsEmpty(market[0].id);
      assert FuzzyFor("")(market[0]);
      FindFirst(market, FuzzyFor(""), 0);
    }
  }

  // ---- the response map ----

  /** One entry of `allCoinData`: named after the query symbol, with a
      missing or zero supply read as 0. */
  function ToCoinData(symbol: string, m: MarketCoin): CoinData {
    CoinData(m.id, symbol, m.symbol, m.currentPrice, m.marketCap, m.totalVolume, m.priceChange24h,
             match m.circulatingSupply case Some(s) => s case None => 0)
  }

  /** The response map for the symbols: an entry for each symbol that
      resolves, built from its match. */
  ghost predicate Answers(r: map<string, CoinData>, symbols: seq<string>, market: seq<MarketCoin>) {
    && (forall s :: s in r <==> s in symbols && FindCoinMatch(s, market).Some?)
    && (forall s :: s in r ==> r[s] == ToCoinData(s, FindCoinMatch(s, market).value))
  }

  /** The `for (const symbol of symbols)` loop. */
  method CollectCoinData(symbols: seq<string>, market: seq<MarketCoin>) returns (r: map<string, CoinData>)
    ensures forall s :: s in r <==> s in symbols && FindCoinMatch(s, market).Some?
    ensures forall s :: s in r ==>
      && r[s].name == s
      && FindCoinMatch(s, market).Some?
      && r[s] == ToCoinData(s, FindCoinMatch(s, market).value)
  {
    r := map[];
    var i := 0;
    while i < |symbols|
      invariant 0 <= i <= |symbols|
      invariant Answers(r, symbols[..i], market)
    {
      var symbol := symbols[i];
      var match_ := FindCoinMatch(symbol, market);
      AnswersStep(r, symbols, market, i);
      if match_.Some? {
        r := r[symbol := ToCoinData(symbol, match_.value)];
      }
      i := i + 1;
    }
    assert symbols[..i] == symbols;
  }

  lemma AnswersStep(r: map<string, CoinData>, symbols: seq<string>, market: seq<MarketCoin>, i: nat)
    requires i < |symbols| && Answers(r, symbols[..i], market)
    ensures var m := FindCoinMatch(symbols[i], market);
      Answers(if m.Some? then r[symbols[i] := ToCoinData(symbols[i], m.value)] else r, symbols[..i + 1], market)
  {
    assert symbols[..i + 1] == symbols[..i] + [symbols[i]];
  }

  /** The supply reads as 0 when the market list has none, and each entry
      carries its match's id, ticker and prices. */
  lemma ToCoinDataSpec(symbol: string, m: MarketCoin)
    ensures var d := ToCoinData(symbol, m);
      && d.name == symbol && d.id == m.id && d.symbol == m.symbol
      && d.price == m.currentPrice && d.percentChange24h == m.priceChange24h
      && (m.circulatingSupply.None? ==> d.circulatingSupply == 0)
      && (m.circulatingSupply.Some? ==> d.circulatingSupply == m.circulatingSupply.value)
  {
  }

  // ---- the market cache ----

  datatype MarketCache = MarketCache(data: seq<MarketCoin>, timestamp: int)

  /** What the HTTP request gave: a body (absent when the response had no
      data) or an error. */
  datatype FetchOutcome = Received(body: Option<seq<MarketCoin>>) | Failed

  datatype Fetched = Fetched(data: seq<MarketCoin>, isFresh: bool)

  /** The route's response: the data map with `isFresh`, or the status 500
      error answer. */
  datatype Response = Ok(data: map<string, CoinData>, isFresh: bool) | ServerError

  predicate Succeeded(outcome: FetchOutcome) {
    outcome.Received? && outcome.body.Some?
  }

  class MarketRoute {
    /** The module-level `marketCache`. */
    var marketCache: Option<MarketCache>

    constructor ()
      ensures marketCache == None
    {
      marketCache := None;
    }

    /** `fetchAllMarketData` at time `now`: a good response refreshes the
        cache; a failure falls back to the cache, or fails itself (`None`)
        when there is none. */
    method FetchAllMarketData(outcome: FetchOutcome, now: int) returns (r: Option<Fetched>)
      modifies this
      ensures Succeeded(outcome) ==>
        marketCache == Some(MarketCache(outcome.body.value, now)) && r == Some(Fetched(outcome.body.value, true))
      ensures !Succeeded(outcome) ==> marketCache == old(marketCache)
      ensures !Succeeded(outcome) && old(marketCache).Some? ==> r == Some(Fetched(old(marketCache).value.data, false))
      ensures !Succeeded(outcome) && old(marketCache).None? ==> r.None?
    {
      if outcome.Received? && outcome.body.Some? {
        var received := outcome.body.value;
        marketCache := Some(MarketCache(received, now));
        return Some(Fetched(received, true));
      }
      if marketCache.Some? {
        return Some(Fetched(marketCache.value.data, false));
      }
      return None;
    }

    /** `POST`: the symbols resolved against the fetched list, or the error
        answer when no list could be had. */
    method Post(symbols: seq<string>, outcome: FetchOutcome, now: int) returns (resp: Response)
      modifies this
      ensures resp.Ok? <==> Succeeded(outcome) || old(marketCache).Some?
      ensures resp.Ok? ==> resp.isFresh == Succeeded(outcome)
      ensures resp.Ok? ==> var list := if Succeeded(outcome) then outcome.body.value else old(marketCache).value.data;
        && (forall s :: s in resp.data <==> s in symbols && FindCoinMatch(s, list).Some?)
        && (forall s :: s in resp.data ==> FindCoinMatch(s, list).Some? && resp.data[s] == ToCoinData(s, FindCoinMatch(s, list).value))
      ensures Succeeded(outcome) ==> marketCache == Some(MarketCache(outcome.body.value, now))
      ensures !Succeeded(outcome) ==> marketCache == old(marketCache)
    {
      var fetched := FetchAllMarketData(outcome, now);
      if fetched.None? {
        return ServerError;
      }
      var data := CollectCoinData(symbols, fetched.value.data);
      return Ok(data, fetched.value.isFresh);
    }
  }

  /** After a good response, a failed one serves the same list, marked not
      fresh. */
  method FallbackAfterSuccess(route: MarketRoute, good: seq<MarketCoin>, t1: int, t2: int) returns (r: Option<Fetched>)
    modifies route
    ensures r == Some(Fetched(good, false))
    ensures route.marketCache == Some(MarketCache(good, t1))
  {
    var initial := route.FetchAllMarketData(Received(Some(good)), t1);
    r := route.FetchAllMarketData(Failed, t2);
  }
}
