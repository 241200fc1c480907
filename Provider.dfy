/**
 * The provider contract of src/provider/mod.rs: the records providers
 * return, the sampling interval and its CLI name, the Config errors the
 * default capability methods return, the registry of available providers
 * and the case-insensitive lookup by id.
 */
module Provider {
  import opened Wrappers
  import opened Errors
  import opened Text

  /** One coin's current price as a provider reports it (the fetch time is not modelled). */
  datatype CoinPrice = CoinPrice(
    symbol: string,
    name: string,
    price: real,
    change24h: Option<real>,
    marketCap: Option<real>,
    currency: string,
    provider: string)

  /** One historical price; the timestamp is in seconds. */
  datatype PricePoint = PricePoint(timestamp: int, price: real)

  /** One ticker search hit. */
  datatype TickerMatch = TickerMatch(
    symbol: string,
    name: string,
    exchange: string,
    assetType: string,
    provider: string)

  /** A coin's historical price series. */
  datatype PriceHistory = PriceHistory(
    symbol: string,
    name: string,
    currency: string,
    provider: string,
    points: seq<PricePoint>)

  /** Sampling interval of chart data. */
  datatype HistoryInterval = Auto | Hourly | Daily

  /** `HistoryInterval::as_str`: the lower-case CLI name of an interval. */
  function AsStr(i: HistoryInterval): (r: string)
    ensures r == "auto" <==> i == Auto
    ensures r == "hourly" <==> i == Hourly
    ensures r == "daily" <==> i == Daily
  {
    match i
    case Auto => "auto"
    case Hourly => "hourly"
    case Daily => "daily"
  }

  /** The CLI's `--sampling` value parser: a name back to its interval. */
  function IntervalFromStr(s: string): Option<HistoryInterval> {
    if s == "auto" then Some(Auto)
    else if s == "hourly" then Some(Hourly)
    else if s == "daily" then Some(Daily)
    else None
  }

  /** The CLI names and the intervals are in one-to-one correspondence. */
  lemma IntervalNameRoundTrip(i: HistoryInterval, s: string)
    ensures IntervalFromStr(AsStr(i)) == Some(i)
    ensures IntervalFromStr(s) == Some(i) ==> AsStr(i) == s
    ensures AsStr(i) == s <==> IntervalFromStr(s) == Some(i)
  {
  }

  // ---------------------------------------------------------------------
  // Responses
  // ---------------------------------------------------------------------

  /**
   * What a provider receives from its HTTP request: the status code, its
   * reason phrase and the body text. Sending the request is not modelled.
   */
  datatype HttpResponse = HttpResponse(status: nat, reason: string, body: string)

  /** An outgoing GET request: its URL and extra headers. */
  datatype Request = Request(url: string, headers: seq<(string, string)>)

  /** `StatusCode::is_success`: a 2xx status. */
  predicate IsSuccess(status: nat) {
    200 <= status <= 299
  }

  /** `StatusCode`'s `Display`: the code followed by its reason phrase. */
  function StatusText(response: HttpResponse): string {
    NatToDecimal(response.status) + " " + response.reason
  }

  /**
   * A JSON body decoded into the shape the provider expects, or the
   * decoder's complaint; JSON decoding itself is not modelled.
   */
  datatype Decoded<+T> = Decoded(value: T) | Malformed(reason: string)

  /**
   * The error for a failed status: `<provider> returned <status>: <body>`.
   * It always shows the numeric status code.
   */
  function StatusError(provider: string, response: HttpResponse): (e: Error)
    ensures e.Api? && Contains(e.message, NatToDecimal(response.status))
  {
    var code := NatToDecimal(response.status);
    var before, after := provider + " returned ", " " + response.reason + ": " + response.body;
    var msg := provider + " returned " + StatusText(response) + ": " + response.body;
    assert msg == before + code + after;
    assert msg[|before|..|before| + |code|] == code;
    ContainsAt(msg, code, |before|);
    Api(msg)
  }

  // ---------------------------------------------------------------------
  // Default capability methods
  // ---------------------------------------------------------------------

  /** The text the chart code looks for to fall back to a day-count fetch. */
  const WindowUnsupported: string := "does not support explicit chart date windows"

  /** Default `get_price_history`: a Config error naming the provider. */
  function DefaultHistoryError(id: string): Error {
    Config("provider '" + id + "' does not support chart mode")
  }

  /** Default `get_price_history_window`: a Config error naming the provider. */
  function DefaultWindowError(id: string): Error {
    Config("provider '" + id + "' " + WindowUnsupported)
  }

  /** Default `search_tickers`: a Config error naming the provider. */
  function DefaultSearchError(id: string): Error {
    Config("provider '" + id + "' does not support ticker search")
  }

  /** A provider without its own window support always reports the fallback text. */
  lemma DefaultWindowErrorTriggersFallback(id: string)
    ensures DefaultWindowError(id).Config?
    ensures Contains(DefaultWindowError(id).message, WindowUnsupported)
  {
    var prefix := "provider '" + id + "' ";
    var msg := DefaultWindowError(id).message;
    assert msg == prefix + WindowUnsupported;
    assert msg[|prefix|..|prefix| + |WindowUnsupported|] == WindowUnsupported;
    ContainsAt(msg, WindowUnsupported, |prefix|);
  }

  lemma ApostropheNotInWindowText()
    ensures '\'' !in WindowUnsupported
  {
  }

  /**
   * A message of the form `provider '<id>'<tail>` holds the fallback text
   * only where the id does, as long as the tail is too short to hold it.
   */
  lemma QuotedIdFallbackOnlyInId(id: string, tail: string)
    requires |tail| < |WindowUnsupported|
    requires Contains("provider '" + id + "'" + tail, WindowUnsupported)
    ensures Contains(id, WindowUnsupported)
  {
    var rest := id + ['\''] + tail;
    QuotedIdShape(id, tail);
    ApostropheNotInWindowText();
    ContainsAfter("provider ", '\'', rest, WindowUnsupported);
    ContainsBefore(id, '\'', tail, WindowUnsupported);
  }

  /** `provider '<id>'<tail>` read as the prefix `provider `, a quote, and the rest. */
  lemma QuotedIdShape(id: string, tail: string)
    ensures "provider '" + id + "'" + tail == "provider " + ['\''] + (id + ['\''] + tail)
  {
    assert "provider '" == "provider " + ['\''];
    assert "'" == ['\''];
  }

  /** An id holding the fallback text passes it on to any message that quotes it. */
  lemma QuotedIdFallbackFromId(id: string, tail: string)
    requires Contains(id, WindowUnsupported)
    ensures Contains("provider '" + id + "'" + tail, WindowUnsupported)
  {
    ContainsInfix("provider '", id, "'" + tail, WindowUnsupported);
    assert "provider '" + id + ("'" + tail) == "provider '" + id + "'" + tail;
  }

  /** A message of the form `provider '<id>'<tail>` with a short tail holds the fallback text exactly when the id does. */
  lemma QuotedIdContainsFallback(id: string, tail: string)
    requires |tail| < |WindowUnsupported|
    ensures Contains("provider '" + id + "'" + tail, WindowUnsupported) <==> Contains(id, WindowUnsupported)
  {
    if Contains("provider '" + id + "'" + tail, WindowUnsupported) {
      QuotedIdFallbackOnlyInId(id, tail);
    }
    if Contains(id, WindowUnsupported) {
      QuotedIdFallbackFromId(id, tail);
    }
  }

  /** The default history error triggers the chart fallback only if the id itself holds the fallback text. */
  lemma DefaultHistoryErrorFallback(id: string)
    ensures DefaultHistoryError(id).Config?
    ensures Contains(DefaultHistoryError(id).message, WindowUnsupported) <==> Contains(id, WindowUnsupported)
  {
    var tail := " does not support chart mode";
    assert DefaultHistoryError(id).message == "provider '" + id + "'" + tail;
    QuotedIdContainsFallback(id, tail);
  }

  /** The default search error triggers the chart fallback only if the id itself holds the fallback text. */
  lemma DefaultSearchErrorFallback(id: string)
    ensures DefaultSearchError(id).Config?
    ensures Contains(DefaultSearchError(id).message, WindowUnsupported) <==> Contains(id, WindowUnsupported)
  {
    var tail := " does not support ticker search";
    assert DefaultSearchError(id).message == "provider '" + id + "'" + tail;
    QuotedIdContainsFallback(id, tail);
  }

  // ---------------------------------------------------------------------
  // The registry
  // ---------------------------------------------------------------------

  /** The providers the registry builds; CoinMarketCap carries its API key, if any. */
  datatype ProviderKind = CoinGecko | Stooq | YahooFinance | CoinMarketCap(apiKey: Option<string>)

  /** `PriceProvider::id`: the short name used with `--provider`. */
  function Id(p: ProviderKind): string {
    match p
    case CoinGecko => "coingecko"
    case Stooq => "stooq"
    case YahooFinance => "yahoo"
    case CoinMarketCap(_) => "cmc"
  }

  /**
   * `available_providers`: CoinGecko, Stooq and Yahoo Finance, then
   * CoinMarketCap with the explicit key, or else the environment's key, or
   * else none. The environment variable is read by the caller.
   */
  method AvailableProviders(apiKey: Option<string>, envKey: Option<string>) returns (providers: seq<ProviderKind>)
    ensures |providers| == 4
    ensures providers[0] == CoinGecko && providers[1] == Stooq && providers[2] == YahooFinance
    ensures providers[3].CoinMarketCap?
    ensures apiKey.Some? ==> providers[3].apiKey == apiKey
    ensures apiKey.None? ==> providers[3].apiKey == envKey
    ensures providers[3].apiKey.Some? <==> apiKey.Some? || envKey.Some?
  {
    var cmcKey := if apiKey.Some? then apiKey else envKey;
    providers := [CoinGecko, Stooq, YahooFinance];
    match cmcKey {
      case Some(key) =>
        providers := providers + [CoinMarketCap(Some(key))];
      case None =>
        providers := providers + [CoinMarketCap(None)];
    }
  }

  /**
   * `get_provider`: the index of the first provider whose id equals `id`
   * up to ASCII case, if there is one.
   */
  function GetProvider(providers: seq<ProviderKind>, id: string): (r: Option<nat>)
    ensures r.Some? ==> r.value < |providers| && EqIgnoreAsciiCase(Id(providers[r.value]), id)
    ensures r.Some? ==> forall j :: 0 <= j < r.value ==> !EqIgnoreAsciiCase(Id(providers[j]), id)
    ensures r.None? ==> forall j :: 0 <= j < |providers| ==> !EqIgnoreAsciiCase(Id(providers[j]), id)
  {
    if providers == [] then None
    else if EqIgnoreAsciiCase(Id(providers[0]), id) then Some(0)
    else
      var tail := providers[1..];
      assert forall j :: 0 <= j < |tail| ==> tail[j] == providers[j + 1];
      match GetProvider(tail, id)
      case None => None
      case Some(i) => Some(i + 1)
  }

  /** A matching id has the length of the provider's id: a prefix never selects a provider. */
  lemma GetProviderWholeId(providers: seq<ProviderKind>, id: string)
    requires GetProvider(providers, id).Some?
    ensures |id| == |Id(providers[GetProvider(providers, id).value])|
  {
    var k := GetProvider(providers, id).value;
    assert |Lower(id)| == |Lower(Id(providers[k]))|;
  }

  /** Lookup does not depend on the case of the query. */
  lemma {:induction false} GetProviderIgnoresCase(providers: seq<ProviderKind>, a: string, b: string)
    requires EqIgnoreAsciiCase(a, b)
    ensures GetProvider(providers, a) == GetProvider(providers, b)
  {
    if providers != [] {
      GetProviderIgnoresCase(providers[1..], a, b);
    }
  }

  /** The registry ids are already in lower case. */
  lemma RegistryIdsLowerCase(p: ProviderKind)
    ensures Lower(Id(p)) == Id(p)
  {
    var id := Id(p);
    assert forall i :: 0 <= i < |id| ==> !IsAsciiUpper(id[i]);
    LowerOfLowerCase(id);
  }

  /** Looking up each registry id, in any case, finds that provider. */
  lemma GetProviderFindsRegistered(key: Option<string>, k: nat, id: string)
    requires k < 4
    requires EqIgnoreAsciiCase(id, Id([CoinGecko, Stooq, YahooFinance, CoinMarketCap(key)][k]))
    ensures GetProvider([CoinGecko, Stooq, YahooFinance, CoinMarketCap(key)], id) == Some(k)
  {
    var registry := [CoinGecko, Stooq, YahooFinance, CoinMarketCap(key)];
    forall j | 0 <= j < 4 {
      RegistryIdsLowerCase(registry[j]);
    }
    assert Lower(id) == Id(registry[k]);
    assert "stooq"[0] != "yahoo"[0];
  }

  /** None of the registry ids holds the fallback text, so their history and search errors never trigger it. */
  lemma RegistryErrorsDoNotFallBack(p: ProviderKind)
    ensures !Contains(DefaultHistoryError(Id(p)).message, WindowUnsupported)
    ensures !Contains(DefaultSearchError(Id(p)).message, WindowUnsupported)
  {
    ShorterDoesNotContain(Id(p), WindowUnsupported);
    DefaultHistoryErrorFallback(Id(p));
    DefaultSearchErrorFallback(Id(p));
  }
}
