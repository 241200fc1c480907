/**
 * The CoinGecko provider of src/provider/coingecko.rs: the ticker alias
 * table, the query it sends to `/simple/price`, and how it turns the
 * decoded response into prices. The response arrives already decoded as a
 * map from CoinGecko ids to maps from field names to numbers.
 */
module CoinGeckoPrices {
  import opened Wrappers
  import opened Errors
  import opened Text
  import opened Sequences
  import opened Provider

  const BaseUrl: string := "https://api.coingecko.com/api/v3"

  /** `PriceProvider::name` of this provider, copied into every price. */
  const ProviderName: string := "CoinGecko"

  /** The decoded `/simple/price` body: CoinGecko id to field name to value. */
  type SimplePrice = map<string, map<string, real>>

  /** `capitalize`: the first character upper-cased, the rest unchanged. */
  function Capitalize(s: string): (r: string)
    ensures |r| == |s|
    ensures s != [] ==> r[0] == UpperChar(s[0]) && r[1..] == s[1..]
  {
    if s == [] then [] else [UpperChar(s[0])] + s[1..]
  }

  /** Capitalizing changes only the case of the first letter. */
  lemma CapitalizeSameLowerForm(s: string)
    ensures Lower(Capitalize(s)) == Lower(s)
  {
    if s != [] {
      var r := Capitalize(s);
      assert Lower(r)[0] == LowerChar(UpperChar(s[0])) == LowerChar(s[0]);
      assert forall i :: 1 <= i < |s| ==> Lower(r)[i] == Lower(s)[i];
    }
  }

  /** Capitalizing twice is capitalizing once. */
  lemma CapitalizeIdempotent(s: string)
    ensures Capitalize(Capitalize(s)) == Capitalize(s)
  {
  }

  /** The arms of `resolve`'s `match`: a lower-case ticker or coin name to (CoinGecko id, display name). */
  function Alias(lower: string): Option<(string, string)> {
    match lower
    case "btc" | "bitcoin" => Some(("bitcoin", "Bitcoin"))
    case "eth" | "ethereum" => Some(("ethereum", "Ethereum"))
    case "usdt" | "tether" => Some(("tether", "Tether"))
    case "bnb" => Some(("binancecoin", "BNB"))
    case "sol" | "solana" => Some(("solana", "Solana"))
    case "xrp" | "ripple" => Some(("ripple", "XRP"))
    case "usdc" => Some(("usd-coin", "USDC"))
    case "ada" | "cardano" => Some(("cardano", "Cardano"))
    case "doge" | "dogecoin" => Some(("dogecoin", "Dogecoin"))
    case "dot" | "polkadot" => Some(("polkadot", "Polkadot"))
    case "matic" | "polygon" => Some(("matic-network", "Polygon"))
    case "ltc" | "litecoin" => Some(("litecoin", "Litecoin"))
    case "avax" | "avalanche" => Some(("avalanche-2", "Avalanche"))
    case "link" | "chainlink" => Some(("chainlink", "Chainlink"))
    case "atom" | "cosmos" => Some(("cosmos", "Cosmos"))
    case "uni" | "uniswap" => Some(("uniswap", "Uniswap"))
    case "xlm" | "stellar" => Some(("stellar", "Stellar"))
    case "shib" => Some(("shiba-inu", "Shiba Inu"))
    case "trx" | "tron" => Some(("tron", "TRON"))
    case "ton" => Some(("the-open-network", "Toncoin"))
    case "pepe" => Some(("pepe", "Pepe"))
    case "near" => Some(("near", "NEAR"))
    case "apt" | "aptos" => Some(("aptos", "Aptos"))
    case "arb" | "arbitrum" => Some(("arbitrum", "Arbitrum"))
    case "op" | "optimism" => Some(("optimism", "Optimism"))
    case "sui" => Some(("sui", "Sui"))
    case _ => None
  }

  /**
   * `CoinGecko::resolve`: the (id, display name) of a symbol, from the alias
   * table when the lower-cased symbol is in it, and otherwise the
   * lower-cased symbol with its capitalized form as name.
   */
  function Resolve(symbol: string): (string, string) {
    var lower := Lower(symbol);
    match Alias(lower)
    case Some(entry) => entry
    case None => (lower, Capitalize(lower))
  }

  /** Resolution depends only on the lower-cased symbol. */
  lemma ResolveIgnoresCase(a: string, b: string)
    requires EqIgnoreAsciiCase(a, b)
    ensures Resolve(a) == Resolve(b)
    ensures Resolve(a) == Resolve(Lower(a))
  {
    LowerIdempotent(a);
  }

  /**
   * A symbol outside the table resolves to an id in lower case and a
   * display name that differs from the id only in the case of its first letter.
   */
  lemma ResolveUnknown(symbol: string)
    requires Alias(Lower(symbol)).None?
    ensures var (id, name) := Resolve(symbol);
      id == Lower(symbol) && Lower(id) == id && Lower(name) == id && |name| == |symbol|
  {
    LowerIdempotent(symbol);
    CapitalizeSameLowerForm(Lower(symbol));
  }

  /** The resolved ids, in symbol order. */
  function ResolvedIds(symbols: seq<string>): (r: seq<string>)
    ensures |r| == |symbols|
    ensures forall i :: 0 <= i < |symbols| ==> r[i] == Resolve(symbols[i]).0
  {
    seq(|symbols|, i requires 0 <= i < |symbols| => Resolve(symbols[i]).0)
  }

  /** The `ids` query parameter: the resolved ids joined by commas. */
  function IdsParam(symbols: seq<string>): string {
    Join(ResolvedIds(symbols), ",")
  }

  /** The request URL: ids, the lower-cased currency, and the change and market-cap flags. */
  function PricesUrl(symbols: seq<string>, currency: string): string {
    BaseUrl + "/simple/price?ids=" + IdsParam(symbols) + "&vs_currencies=" + Lower(currency)
    + "&include_24hr_change=true&include_market_cap=true"
  }

  // ---------------------------------------------------------------------
  // Assembling the results
  // ---------------------------------------------------------------------

  function Get(fields: map<string, real>, key: string): Option<real> {
    if key in fields then Some(fields[key]) else None
  }

  /**
   * The price for one input symbol, when its resolved id is in the response:
   * the upper-cased symbol, the display name, the `cur` field (0.0 when
   * absent), the `<cur>_24h_change` and `<cur>_market_cap` fields when
   * present and the upper-cased currency.
   */
  function PriceEntry(symbol: string, data: SimplePrice, cur: string): Option<CoinPrice> {
    var (id, name) := Resolve(symbol);
    if id !in data then None
    else
      var fields := data[id];
      Some(CoinPrice(
        Upper(symbol), name, Get(fields, cur).UnwrapOr(0.0),
        Get(fields, cur + "_24h_change"), Get(fields, cur + "_market_cap"),
        Upper(cur), ProviderName))
  }

  function Selector(data: SimplePrice, cur: string): string -> Option<CoinPrice> {
    symbol => PriceEntry(symbol, data, cur)
  }

  /** The prices of the symbols the response covers, in input order. */
  function SelectPrices(symbols: seq<string>, data: SimplePrice, cur: string): seq<CoinPrice> {
    FilterMap(symbols, Selector(data, cur))
  }

  /** An empty result set is `NoResults`. */
  function NonEmpty(prices: seq<CoinPrice>): (r: Result<seq<CoinPrice>>)
    ensures r.Ok? <==> prices != []
    ensures r.Ok? ==> r.value == prices
    ensures r.Err? ==> r.error == NoResults
  {
    if prices == [] then Err(NoResults) else Ok(prices)
  }

  /**
   * The post-request part of `get_prices`: a failed status is an Api error
   * showing the status, a body that does not decode is a Parse error, and
   * otherwise the prices of the covered symbols in input order, or
   * `NoResults` when none is covered.
   */
  method GetPrices(symbols: seq<string>, currency: string, response: HttpResponse, decoded: Decoded<SimplePrice>)
    returns (r: Result<seq<CoinPrice>>)
    ensures !IsSuccess(response.status) ==> r == Err(StatusError(ProviderName, response))
    ensures IsSuccess(response.status) && decoded.Malformed? ==>
      r == Err(Parse("CoinGecko JSON: " + decoded.reason))
    ensures IsSuccess(response.status) && decoded.Decoded? ==>
      r == NonEmpty(SelectPrices(symbols, decoded.value, Lower(currency)))
  {
    var resolved := seq(|symbols|, i requires 0 <= i < |symbols| => Resolve(symbols[i]));
    var cur := Lower(currency);
    if !IsSuccess(response.status) {
      return Err(StatusError(ProviderName, response));
    }
    if decoded.Malformed? {
      return Err(Parse("CoinGecko JSON: " + decoded.reason));
    }
    var data := decoded.value;
    var changeKey := cur + "_24h_change";
    var capKey := cur + "_market_cap";
    var results: seq<CoinPrice> := [];
    var i := 0;
    while i < |resolved|
      invariant 0 <= i <= |symbols|
      invariant results == FilterMap(symbols[..i], Selector(data, cur))
    {
      assert symbols[..i + 1][..i] == symbols[..i];
      var (cgId, displayName) := resolved[i];
      if cgId in data {
        var coinData := data[cgId];
        var price := if cur in coinData then coinData[cur] else 0.0;
        results := results + [CoinPrice(
          Upper(symbols[i]), displayName, price,
          Get(coinData, changeKey), Get(coinData, capKey),
          Upper(cur), ProviderName)];
      }
      i := i + 1;
    }
    assert symbols[..i] == symbols;
    if results == [] {
      return Err(NoResults);
    }
    return Ok(results);
  }

  /**
   * The results follow the input order and hold one price per symbol whose
   * resolved id the response covers: position `k` belongs to input
   * `Hits(...)[k]`, and carries that symbol upper-cased, its display name,
   * the price field or 0.0, the optional change and market cap, the
   * upper-cased currency and the provider name.
   */
  lemma SelectPricesSpec(symbols: seq<string>, data: SimplePrice, cur: string)
    ensures var prices, hits := SelectPrices(symbols, data, cur), Hits(symbols, Selector(data, cur));
      && |prices| == |hits|
      && (forall k :: 0 <= k < |hits| ==>
            var sym := symbols[hits[k]];
            var id := Resolve(sym).0;
            && id in data
            && prices[k].symbol == Upper(sym)
            && prices[k].name == Resolve(sym).1
            && prices[k].price == (if cur in data[id] then data[id][cur] else 0.0)
            && prices[k].change24h == Get(data[id], cur + "_24h_change")
            && prices[k].marketCap == Get(data[id], cur + "_market_cap")
            && prices[k].currency == Upper(cur)
            && prices[k].provider == ProviderName)
      && (forall i :: 0 <= i < |symbols| && Resolve(symbols[i]).0 in data ==> i in hits)
  {
    var f := Selector(data, cur);
    FilterMapAtHits(symbols, f);
    var hits := Hits(symbols, f);
    forall i | 0 <= i < |symbols| && Resolve(symbols[i]).0 in data
      ensures i in hits
    {
      assert f(symbols[i]).Some?;
    }
  }

  /** The result set is empty exactly when the response covers none of the resolved ids. */
  lemma SelectPricesEmpty(symbols: seq<string>, data: SimplePrice, cur: string)
    ensures SelectPrices(symbols, data, cur) == [] <==>
      forall i :: 0 <= i < |symbols| ==> Resolve(symbols[i]).0 !in data
  {
    var f := Selector(data, cur);
    FilterMapEmpty(symbols, f);
    assert forall i :: 0 <= i < |symbols| ==> (f(symbols[i]).None? <==> Resolve(symbols[i]).0 !in data);
  }

  // ---------------------------------------------------------------------
  // The cases of the provider's mock-server tests
  // ---------------------------------------------------------------------

  /** A ticker and its coin name, in any case, resolve alike. */
  lemma ResolveAliasExamples()
    ensures Resolve("btc") == ("bitcoin", "Bitcoin") && Resolve("BTC") == ("bitcoin", "Bitcoin")
    ensures Resolve("bitcoin") == ("bitcoin", "Bitcoin") && Resolve("Bitcoin") == ("bitcoin", "Bitcoin")
  {
    assert Lower("btc") == "btc" && Lower("BTC") == "btc";
    assert Lower("bitcoin") == "bitcoin" && Lower("Bitcoin") == "bitcoin";
  }

  /** A ticker outside the table is its own id, capitalized as name. */
  lemma ResolveUnknownExample()
    ensures Resolve("XMR") == ("xmr", "Xmr")
  {
    assert Lower("XMR") == "xmr";
    assert Alias("xmr") == None;
    assert Capitalize("xmr") == "Xmr";
  }

  /** `btc eth` in `usd` queries the ids `bitcoin,ethereum` against `usd`. */
  lemma QueryExample()
    ensures IdsParam(["btc", "eth"]) == "bitcoin,ethereum"
    ensures Lower("usd") == "usd"
  {
    assert Lower("btc") == "btc" && Lower("eth") == "eth";
    assert ResolvedIds(["btc", "eth"]) == ["bitcoin", "ethereum"];
  }

  /** The decoded body of the mock server's success case. */
  const MockPrices: SimplePrice := map[
    "bitcoin" := map["usd" := 50000.0, "usd_24h_change" := 1.5, "usd_market_cap" := 999999999.0],
    "ethereum" := map["usd" := 3000.0, "usd_24h_change" := -0.5, "usd_market_cap" := 500000000.0]]

  /** The fields the mock response holds for a coin, read back for `usd`. */
  lemma MockFields(id: string, price: real, change: real, cap: real)
    requires id in MockPrices
    requires MockPrices[id] == map["usd" := price, "usd_24h_change" := change, "usd_market_cap" := cap]
    ensures Get(MockPrices[id], "usd") == Some(price)
    ensures Get(MockPrices[id], "usd" + "_24h_change") == Some(change)
    ensures Get(MockPrices[id], "usd" + "_market_cap") == Some(cap)
  {
    assert "usd" + "_24h_change" == "usd_24h_change";
    assert "usd" + "_market_cap" == "usd_market_cap";
  }

  lemma MockBitcoinEntry()
    ensures PriceEntry("btc", MockPrices, "usd")
      == Some(CoinPrice("BTC", "Bitcoin", 50000.0, Some(1.5), Some(999999999.0), "USD", "CoinGecko"))
  {
    assert Lower("btc") == "btc" && Upper("btc") == "BTC" && Upper("usd") == "USD";
    MockFields("bitcoin", 50000.0, 1.5, 999999999.0);
  }

  lemma MockEthereumEntry()
    ensures PriceEntry("eth", MockPrices, "usd")
      == Some(CoinPrice("ETH", "Ethereum", 3000.0, Some(-0.5), Some(500000000.0), "USD", "CoinGecko"))
  {
    assert Lower("eth") == "eth" && Upper("eth") == "ETH" && Upper("usd") == "USD";
    MockFields("ethereum", 3000.0, -0.5, 500000000.0);
  }

  /** The success case: both coins, in input order, with their fields and upper-cased symbol and currency. */
  lemma MockPricesExample()
    ensures SelectPrices(["btc", "eth"], MockPrices, "usd") == [
      CoinPrice("BTC", "Bitcoin", 50000.0, Some(1.5), Some(999999999.0), "USD", "CoinGecko"),
      CoinPrice("ETH", "Ethereum", 3000.0, Some(-0.5), Some(500000000.0), "USD", "CoinGecko")]
  {
    MockBitcoinEntry();
    MockEthereumEntry();
    assert ["btc", "eth"][..1] == ["btc"];
    assert ["btc"][..0] == [];
  }

  /** The empty-body case: nothing is selected, so the call reports `NoResults`. */
  lemma EmptyResponseExample()
    ensures NonEmpty(SelectPrices(["btc"], map[], "usd")) == Err(NoResults)
  {
    SelectPricesEmpty(["btc"], map[], "usd");
  }
}
