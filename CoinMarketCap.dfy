/**
 * The CoinMarketCap provider of src/provider/coinmarketcap.rs: the keyed
 * `/cryptocurrency/quotes/latest` request and how the decoded response
 * becomes prices. Each `data` entry arrives already told apart as an array
 * or a single object, together with the outcome of decoding it as coins.
 */
module CoinMarketCapPrices {
  import opened Wrappers
  import opened Errors
  import opened Text
  import opened Sequences
  import opened Provider

  const BaseUrl: string := "https://pro-api.coinmarketcap.com/v1"

  /** `PriceProvider::name` of this provider, copied into every price. */
  const ProviderName: string := "CoinMarketCap"

  const ApiKeyHeader: string := "X-CMC_PRO_API_KEY"

  datatype CmcQuote = CmcQuote(price: Option<real>, percentChange24h: Option<real>, marketCap: Option<real>)

  datatype CmcCoin = CmcCoin(name: string, symbol: string, quote: map<string, CmcQuote>)

  /** One `data` entry: an array of coins or a single coin, each decoded or not. */
  datatype CoinValue = CoinArray(coins: Decoded<seq<CmcCoin>>) | CoinObject(coin: Decoded<CmcCoin>)

  datatype CmcStatus = CmcStatus(errorMessage: Option<string>)

  datatype CmcRawResponse = CmcRawResponse(data: map<string, CoinValue>, status: Option<CmcStatus>)

  /** The symbols as sent and looked up: upper-cased, in input order. */
  function UpperSymbols(symbols: seq<string>): (r: seq<string>)
    ensures |r| == |symbols|
    ensures forall i :: 0 <= i < |symbols| ==> r[i] == Upper(symbols[i])
  {
    seq(|symbols|, i requires 0 <= i < |symbols| => Upper(symbols[i]))
  }

  /** The request: upper-cased symbols joined by commas, the upper-cased currency, and the key header. */
  function QuotesRequest(symbols: seq<string>, currency: string, apiKey: string): Request {
    Request(
      BaseUrl + "/cryptocurrency/quotes/latest?symbol=" + Join(UpperSymbols(symbols), ",")
      + "&convert=" + Upper(currency),
      [(ApiKeyHeader, apiKey)])
  }

  /** `status.error_message` when the response carries one that is not empty. */
  function ErrorMessage(raw: CmcRawResponse): (r: Option<string>)
    ensures r.Some? <==> raw.status.Some? && raw.status.value.errorMessage.Some? && raw.status.value.errorMessage.value != []
    ensures r.Some? ==> r.value == raw.status.value.errorMessage.value
  {
    match raw.status
    case None => None
    case Some(st) =>
      match st.errorMessage
      case None => None
      case Some(msg) => if msg == [] then None else Some(msg)
  }

  // ---------------------------------------------------------------------
  // The per-symbol step
  // ---------------------------------------------------------------------

  /** The price of a coin in `convert`, when the coin has a quote in it. */
  function Quoted(coin: CmcCoin, convert: string): (r: Option<CoinPrice>)
    ensures r.Some? <==> convert in coin.quote
  {
    if convert in coin.quote then
      var q := coin.quote[convert];
      Some(CoinPrice(coin.symbol, coin.name, q.price.UnwrapOr(0.0), q.percentChange24h, q.marketCap, convert, ProviderName))
    else None
  }

  /** An entry whose coins do not decode. */
  predicate Undecodable(v: CoinValue) {
    match v
    case CoinArray(coins) => coins.Malformed?
    case CoinObject(coin) => coin.Malformed?
  }

  /**
   * One iteration of the loop: skip an absent symbol or an empty array,
   * abort with a Parse error on an entry that does not decode, and
   * otherwise produce the price of the (first) coin if it is quoted in `convert`.
   */
  function CoinStep(sym: string, data: map<string, CoinValue>, convert: string): (r: Result<Option<CoinPrice>>)
    ensures r.Err? <==> sym in data && Undecodable(data[sym])
    ensures r.Err? ==> r.error.Parse?
  {
    if sym !in data then Ok(None)
    else
      match data[sym]
      case CoinArray(Malformed(reason)) => Err(Parse("CMC coin array: " + reason))
      case CoinArray(Decoded(coins)) => if coins == [] then Ok(None) else Ok(Quoted(coins[0], convert))
      case CoinObject(Malformed(reason)) => Err(Parse("CMC coin: " + reason))
      case CoinObject(Decoded(coin)) => Ok(Quoted(coin, convert))
  }

  /**
   * The loop over the symbols: prices in symbol order, or the error of the
   * first entry that does not decode.
   */
  function Collect(syms: seq<string>, data: map<string, CoinValue>, convert: string): Result<seq<CoinPrice>> {
    if syms == [] then Ok([])
    else
      match Collect(syms[..|syms| - 1], data, convert)
      case Err(e) => Err(e)
      case Ok(acc) =>
        match CoinStep(syms[|syms| - 1], data, convert)
        case Err(e) => Err(e)
        case Ok(None) => Ok(acc)
        case Ok(Some(p)) => Ok(acc + [p])
  }

  /** The price one symbol contributes when its entry decodes. */
  function Pick(data: map<string, CoinValue>, convert: string): string -> Option<CoinPrice> {
    sym => match CoinStep(sym, data, convert) case Ok(p) => p case Err(_) => None
  }

  /** The end of `get_prices`: an error passes through, an empty result set is `NoResults`. */
  function Finish(r: Result<seq<CoinPrice>>): (f: Result<seq<CoinPrice>>)
    ensures r.Err? ==> f == r
    ensures r.Ok? && r.value == [] ==> f == Err(NoResults)
    ensures r.Ok? && r.value != [] ==> f == r
  {
    match r
    case Err(e) => Err(e)
    case Ok(prices) => if prices == [] then Err(NoResults) else Ok(prices)
  }

  /**
   * The post-request part of `get_prices`: a failed status is an Api error
   * showing the status, a body that does not decode is a Parse error, a
   * non-empty `status.error_message` is an Api error, and otherwise the
   * loop's outcome, with `NoResults` for an empty result set.
   */
  method GetPrices(symbols: seq<string>, currency: string, response: HttpResponse, decoded: Decoded<CmcRawResponse>)
    returns (r: Result<seq<CoinPrice>>)
    ensures !IsSuccess(response.status) ==> r == Err(StatusError(ProviderName, response))
    ensures IsSuccess(response.status) && decoded.Malformed? ==> r == Err(Parse("CMC JSON: " + decoded.reason))
    ensures IsSuccess(response.status) && decoded.Decoded? && ErrorMessage(decoded.value).Some? ==>
      r == Err(Api("CoinMarketCap: " + ErrorMessage(decoded.value).value))
    ensures IsSuccess(response.status) && decoded.Decoded? && ErrorMessage(decoded.value).None? ==>
      r == Finish(Collect(UpperSymbols(symbols), decoded.value.data, Upper(currency)))
  {
    var symbolsUpper := UpperSymbols(symbols);
    var convert := Upper(currency);
    if !IsSuccess(response.status) {
      return Err(StatusError(ProviderName, response));
    }
    if decoded.Malformed? {
      return Err(Parse("CMC JSON: " + decoded.reason));
    }
    var raw := decoded.value;
    if raw.status.Some? && raw.status.value.errorMessage.Some? && raw.status.value.errorMessage.value != [] {
      return Err(Api("CoinMarketCap: " + raw.status.value.errorMessage.value));
    }
    var results: seq<CoinPrice> := [];
    for i := 0 to |symbolsUpper|
      invariant Collect(symbolsUpper[..i], raw.data, convert) == Ok(results)
    {
      var sym := symbolsUpper[i];
      assert symbolsUpper[..i + 1][..i] == symbolsUpper[..i];
      assert symbolsUpper[..i + 1][i] == sym;
      if sym in raw.data {
        var coin: CmcCoin;
        match raw.data[sym] {
          case CoinArray(coins) =>
            if coins.Malformed? {
              CollectErrPersists(symbolsUpper, i + 1, raw.data, convert);
              assert symbolsUpper[..|symbolsUpper|] == symbolsUpper;
              return Err(Parse("CMC coin array: " + coins.reason));
            }
            if coins.value == [] {
              continue;
            }
            coin := coins.value[0];
          case CoinObject(c) =>
            if c.Malformed? {
              CollectErrPersists(symbolsUpper, i + 1, raw.data, convert);
              assert symbolsUpper[..|symbolsUpper|] == symbolsUpper;
              return Err(Parse("CMC coin: " + c.reason));
            }
            coin := c.value;
        }
        if convert in coin.quote {
          var quote := coin.quote[convert];
          results := results + [CoinPrice(
            coin.symbol, coin.name, quote.price.UnwrapOr(0.0),
            quote.percentChange24h, quote.marketCap, convert, ProviderName)];
        }
      }
    }
    assert symbolsUpper[..|symbolsUpper|] == symbolsUpper;
    if results == [] {
      return Err(NoResults);
    }
    return Ok(results);
  }

  // ---------------------------------------------------------------------
  // Properties of the loop
  // ---------------------------------------------------------------------

  /** One more symbol extends the outcome by that symbol's step. */
  lemma CollectSnoc(syms: seq<string>, sym: string, data: map<string, CoinValue>, convert: string)
    ensures Collect(syms + [sym], data, convert) ==
      match Collect(syms, data, convert)
      case Err(e) => Err(e)
      case Ok(acc) =>
        match CoinStep(sym, data, convert)
        case Err(e) => Err(e)
        case Ok(None) => Ok(acc)
        case Ok(Some(p)) => Ok(acc + [p])
  {
    assert (syms + [sym])[..|syms|] == syms;
  }

  /** Once an entry aborts the loop, no later symbol changes the outcome. */
  lemma {:induction false} CollectErrPersists(syms: seq<string>, n: nat, data: map<string, CoinValue>, convert: string)
    requires n <= |syms|
    requires Collect(syms[..n], data, convert).Err?
    ensures Collect(syms, data, convert) == Collect(syms[..n], data, convert)
    decreases |syms| - n
  {
    if n < |syms| {
      var m := n + 1;
      assert syms[..m][..n] == syms[..n];
      CollectErrPersists(syms, m, data, convert);
    } else {
      assert syms[..n] == syms;
    }
  }

  /**
   * The loop fails exactly when some symbol's entry does not decode, and
   * then with a Parse error; otherwise it yields the picked prices in symbol
   * order, so the facts about `FilterMap` describe the results.
   */
  lemma {:induction false} CollectOutcome(syms: seq<string>, data: map<string, CoinValue>, convert: string)
    ensures Collect(syms, data, convert).Err? <==>
      exists i :: 0 <= i < |syms| && syms[i] in data && Undecodable(data[syms[i]])
    ensures Collect(syms, data, convert).Err? ==> Collect(syms, data, convert).error.Parse?
    ensures Collect(syms, data, convert).Ok? ==>
      Collect(syms, data, convert).value == FilterMap(syms, Pick(data, convert))
  {
    if syms != [] {
      var init := syms[..|syms| - 1];
      var last := syms[|syms| - 1];
      CollectOutcome(init, data, convert);
      assert forall i :: 0 <= i < |init| ==> init[i] == syms[i];
      if Collect(init, data, convert).Err? {
        var i :| 0 <= i < |init| && init[i] in data && Undecodable(data[init[i]]);
        assert syms[i] == init[i];
      } else if CoinStep(last, data, convert).Err? {
        assert syms[|syms| - 1] == last;
      } else {
        forall i | 0 <= i < |syms| && syms[i] in data
          ensures !Undecodable(data[syms[i]])
        {
          if i < |init| {
            assert init[i] == syms[i];
          }
        }
      }
    }
  }

  /**
   * A picked price belongs to a symbol present in `data` whose (first) coin
   * is quoted in `convert`; it takes the coin's own symbol and name, the
   * quote's price or 0.0, its change and market cap, and `convert` as currency.
   */
  lemma PickSpec(sym: string, data: map<string, CoinValue>, convert: string)
    ensures var p := Pick(data, convert)(sym);
      p.Some? ==>
        && sym in data && !Undecodable(data[sym])
        && var coin := (match data[sym] case CoinArray(cs) => cs.value[0] case CoinObject(c) => c.value);
           && (data[sym].CoinArray? ==> data[sym].coins.value != [])
           && convert in coin.quote
           && p.value == CoinPrice(coin.symbol, coin.name, coin.quote[convert].price.UnwrapOr(0.0),
                coin.quote[convert].percentChange24h, coin.quote[convert].marketCap, convert, ProviderName)
    ensures sym !in data ==> Pick(data, convert)(sym).None?
    ensures sym in data && data[sym] == CoinArray(Decoded([])) ==> Pick(data, convert)(sym).None?
  {
  }

  /**
   * When every entry decodes, the result is not an error, and it is
   * `NoResults` exactly when no symbol picks a price.
   */
  lemma NoResultsWhenNothingPicked(syms: seq<string>, data: map<string, CoinValue>, convert: string)
    requires forall i :: 0 <= i < |syms| && syms[i] in data ==> !Undecodable(data[syms[i]])
    ensures Finish(Collect(syms, data, convert)) == Err(NoResults) <==>
      forall i :: 0 <= i < |syms| ==> Pick(data, convert)(syms[i]).None?
  {
    CollectOutcome(syms, data, convert);
    FilterMapEmpty(syms, Pick(data, convert));
  }

  // ---------------------------------------------------------------------
  // The cases of the provider's mock-server tests
  // ---------------------------------------------------------------------

  /** `btc eth` in `usd` asks for `BTC,ETH` converted to `USD`. */
  lemma QueryExample()
    ensures Join(UpperSymbols(["btc", "eth"]), ",") == "BTC,ETH"
    ensures Upper("usd") == "USD"
  {
    assert Upper("btc") == "BTC" && Upper("eth") == "ETH";
    assert UpperSymbols(["btc", "eth"]) == ["BTC", "ETH"];
  }

  /** The decoded `data` of the mock server's success case. */
  const MockData: map<string, CoinValue> := map[
    "BTC" := CoinObject(Decoded(CmcCoin("Bitcoin", "BTC", map["USD" := CmcQuote(Some(50000.0), Some(2.25), Some(1000000000.0))]))),
    "ETH" := CoinObject(Decoded(CmcCoin("Ethereum", "ETH", map["USD" := CmcQuote(Some(3000.0), Some(-1.2), Some(500000000.0))])))]

  /** The success case: both coins, in symbol order, with their quotes in `USD`. */
  lemma MockPricesExample()
    ensures Collect(["BTC", "ETH"], MockData, "USD") == Ok([
      CoinPrice("BTC", "Bitcoin", 50000.0, Some(2.25), Some(1000000000.0), "USD", "CoinMarketCap"),
      CoinPrice("ETH", "Ethereum", 3000.0, Some(-1.2), Some(500000000.0), "USD", "CoinMarketCap")])
  {
    var b := CoinPrice("BTC", "Bitcoin", 50000.0, Some(2.25), Some(1000000000.0), "USD", "CoinMarketCap");
    var e := CoinPrice("ETH", "Ethereum", 3000.0, Some(-1.2), Some(500000000.0), "USD", "CoinMarketCap");
    assert CoinStep("BTC", MockData, "USD") == Ok(Some(b));
    assert CoinStep("ETH", MockData, "USD") == Ok(Some(e));
    assert Collect([], MockData, "USD") == Ok([]);
    CollectSnoc([], "BTC", MockData, "USD");
    assert [] + ["BTC"] == ["BTC"];
    assert [] + [b] == [b];
    assert Collect(["BTC"], MockData, "USD") == Ok([b]);
    CollectSnoc(["BTC"], "ETH", MockData, "USD");
    assert ["BTC"] + ["ETH"] == ["BTC", "ETH"];
    assert [b] + [e] == [b, e];
  }

  /** The empty-`data` case: nothing is collected, so the call reports `NoResults`. */
  lemma EmptyDataExample()
    ensures Finish(Collect(["BTC"], map[], "USD")) == Err(NoResults)
  {
    assert ["BTC"][..0] == [];
  }

  /** A null or empty `error_message` does not stop the call; a non-empty one does. */
  lemma ErrorMessageExamples(data: map<string, CoinValue>)
    ensures ErrorMessage(CmcRawResponse(data, Some(CmcStatus(None)))) == None
    ensures ErrorMessage(CmcRawResponse(data, Some(CmcStatus(Some(""))))) == None
    ensures ErrorMessage(CmcRawResponse(data, None)) == None
    ensures ErrorMessage(CmcRawResponse(data, Some(CmcStatus(Some("Invalid value"))))) == Some("Invalid value")
  {
  }
}
