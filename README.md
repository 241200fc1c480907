# cryptoprice, modelled in Dafny

`cryptoprice` is a command-line tool. It prints cryptocurrency prices taken
from several providers (CoinGecko, CoinMarketCap, Stooq, Yahoo Finance), draws
price-history charts, searches a provider's tickers, and converts a fiat amount
such as `3.5EUR` into other currencies or coins ("calc mode"). This project
models the tool's decision logic and proves properties about it:

- **Calc**: fiat amount parsing, fiat code recognition and fiat names
  (`src/calc.rs`).
- **Provider**: the provider registry, the lookup of a provider by id, the
  trait's default "not supported" errors, and the sampling interval names
  (`src/provider/mod.rs`).
- **CoinGeckoPrices**: symbol resolution, the request query and how a
  decoded response becomes a list of prices (`src/provider/coingecko.rs`).
- **CoinMarketCapPrices**: the same for CoinMarketCap, with its error-message
  check and its per-symbol loop that may abort on an entry that does not
  decode (`src/provider/coinmarketcap.rs`).
- **src/main.rs**, split into four modules:
  - **SearchQuery**: resolving the search query and the checks made before a
    search.
  - **ChartRange**: the interval presets, their start dates, the range label,
    the fetch-day count and all chart checks.
  - **HistoryWindow**: narrowing histories to the chart window, and the
    fallback from a window request to a day-count request.
  - **Conversions**: calc mode, meaning the partition of the targets into fiat
    and crypto, and the two conversion loops.
- **Support modules**:
  - `Text` holds ASCII case mapping, `trim`, `join` and substring search.
  - `Calendar` is a proleptic Gregorian calendar standing in for chrono's
    `NaiveDate`.
  - `Sequences` holds order-preserving `Filter`/`FilterMap`, the shape of
    `retain`, `partition` and the loops that conditionally `push`.
  - `Wrappers` (`Option`) and `Errors` hold the crate's error kinds.

Network calls, the clock and the environment are inputs. A provider call is
an HTTP response (status and reason phrase) plus the JSON body, already decoded into
the expected shape or else the decoder's complaint. The current date is the
parameter `today`. The `COINMARKETCAP_API_KEY` variable is read by the caller
and passed in. Operations that change a `Vec` in place (`retain`, `push`,
`remove(0)`) are methods over `seq` values. Each such method is proved equal
to a specification function, and the properties are proved about that function.

The order of the checks in `run` is kept. `run` checks the chart dates (no
symbols, an end date in the future, a start after the end) before it looks
at fiat charts or calc mode. So even a calc command whose end date lies in
the future fails with the chart error. `ChartRange.PlanChart` models those
first checks, and the later modes are modelled as what follows a successful
plan.

## Model

| member | source | states |
|---|---|---|
| `Calc.FirstAsciiAlpha` | src/calc.rs:42 | the position found holds an ASCII letter and no letter comes before it; `None` exactly when the string has no letter |
| `Calc.ParseFiatAmount` | src/calc.rs:40-63 | no letter, or a letter first, gives `None`; a result always has a known upper-case code and a positive finite amount |
| `Calc.ParseFiatAmountSplit` | src/calc.rs:40-63 | for a number part followed by a code starting with a letter: the parse succeeds iff the code is known in any case and the number parses to a positive finite value, and it then yields that value with the upper-cased code |
| `Calc.ParseRenderedAmount` | src/calc.rs:40-63 | every positive whole amount up to `f64::MAX`, written in decimal and followed by a known code in any case, parses back to that amount and the upper-cased code |
| `Calc.IsKnownFiatIgnoresCase` | src/calc.rs:66-68 | two strings equal up to ASCII case are both known fiat codes or both not |
| `Calc.KnownFiatCodes` | src/calc.rs:9-14 | every known code is three upper-case ASCII letters |
| `Calc.KnownFiatShape` | src/calc.rs:66-68 | anything `is_known_fiat` accepts is exactly three ASCII letters |
| `Calc.LookupName` | src/calc.rs:72-113 | a name found comes from a table row with that code; `None` exactly when no row has the code |
| `Calc.FiatNameTableMatchesKnownFiat` | src/calc.rs:72-113 | the name match lists exactly the known codes in the same order, and each name is longer than its code |
| `Calc.FiatNameSpec` | src/calc.rs:71-115 | the name differs from the code iff the code is known in some case; a known code gets its row's name, an unknown code comes back unchanged |
| `Calc.ParseDecimalExample` | src/calc.rs:157-159 | `3.5` parses to 3.5 |
| `Calc.TickersAreNotFiat` | src/calc.rs:197-204 | BTC, ETH, XYZ and the empty string are not known codes |
| `Calc.ParseFourLetterExample` | src/calc.rs:175 | `1inch` is not a fiat amount |
| `Calc.ParseCryptoExample` | src/calc.rs:176 | `3btc` is not a fiat amount |
| `Calc.ParseNegativeExample` | src/calc.rs:187 | `-5USD` is not a fiat amount |
| `Calc.ParseZeroExample` | src/calc.rs:188 | `0USD` is not a fiat amount |
| `Calc.IsKnownFiatExamples` | src/calc.rs:197-204 | `eur` and `Gbp` are known; BTC, ETH and the empty string are not |
| `Calc.FiatNameExamples` | src/calc.rs:207-216 | `eur` is named Euro; XYZ is named XYZ |
| `Calc.ParseDecimal` | src/calc.rs:54 | definition (no contract): an optional sign, then digits with at most one `.`, read as an exact value; its behaviour inside `parse_fiat_amount` is stated by `Calc.ParseFiatAmountSplit` |
| `Calc.IsKnownFiat` | src/calc.rs:66-68 | definition (no contract): the upper-cased string is one of the known codes; properties in `Calc.IsKnownFiatIgnoresCase`, `Calc.KnownFiatShape` and `Calc.IsKnownFiatExamples` |
| `Calc.FiatName` | src/calc.rs:71-115 | definition (no contract): the name of the upper-cased code in the name table, else the code itself; properties in `Calc.FiatNameSpec` and `Calc.FiatNameExamples` |
| `Calc.Multiply` | src/main.rs:473 | definition (no contract): the exact product as a finite value (rounding is not modelled) |
| `Calc.Divide` | src/main.rs:488 | definition (no contract): the exact quotient, or IEEE's infinity of the dividend's sign, or NaN for 0/0 |
| `Provider.AsStr` | src/provider/mod.rs:53-59 | each interval has its own name: `auto`, `hourly` or `daily` |
| `Provider.IntervalNameRoundTrip` | src/provider/mod.rs:53-59 | interval names and intervals correspond one to one |
| `Provider.StatusError` | src/provider/coingecko.rs:94-98 | a failed status gives an Api error whose message shows the numeric status code |
| `Provider.DefaultWindowErrorTriggersFallback` | src/provider/mod.rs:103-115 | the default window error is a Config error containing the text that `run` treats as "no window support" |
| `Provider.QuotedIdContainsFallback` | src/provider/mod.rs:94-97 | a message of the form `provider '<id>'` plus a short tail contains the fallback text iff the id does |
| `Provider.DefaultHistoryErrorFallback` | src/provider/mod.rs:87-98 | the default history error is a Config error, and it contains the fallback text iff the provider id does |
| `Provider.DefaultSearchErrorFallback` | src/provider/mod.rs:120-125 | the default search error is a Config error, and it contains the fallback text iff the provider id does |
| `Provider.AvailableProviders` | src/provider/mod.rs:129-143 | CoinGecko, Stooq, Yahoo Finance, then CoinMarketCap with the explicit key, else the environment key; it has a key iff either was given |
| `Provider.GetProvider` | src/provider/mod.rs:146-150 | the first provider whose id equals the requested id ignoring ASCII case; `None` iff no provider matches |
| `Provider.GetProviderWholeId` | src/provider/mod.rs:146-150 | a match is the whole id, not a prefix |
| `Provider.GetProviderIgnoresCase` | src/provider/mod.rs:149 | ids equal up to ASCII case select the same provider |
| `Provider.GetProviderFindsRegistered` | src/provider/mod.rs:129-150 | on the registry, every registered id, in any case, selects its own position |
| `Provider.RegistryErrorsDoNotFallBack` | src/provider/mod.rs:87-125 | for every registered provider, the default history and search errors never look like the window error |
| `Provider.IntervalFromStr` | src/provider/mod.rs:53-59 | definition (no contract): the interval named by a string, if any; `Provider.IntervalNameRoundTrip` proves it inverse to `Provider.AsStr` |
| `Provider.DefaultHistoryError` | src/provider/mod.rs:87-98 | definition (no contract): the Config error `provider '<id>' does not support chart mode`; properties in `Provider.DefaultHistoryErrorFallback` |
| `Provider.DefaultWindowError` | src/provider/mod.rs:103-115 | definition (no contract): the Config error `provider '<id>' does not support explicit chart date windows`; properties in `Provider.DefaultWindowErrorTriggersFallback` |
| `Provider.DefaultSearchError` | src/provider/mod.rs:120-125 | definition (no contract): the Config error `provider '<id>' does not support ticker search`; properties in `Provider.DefaultSearchErrorFallback` |
| `CoinGeckoPrices.Capitalize` | src/provider/coingecko.rs:132-141 | the first character upper-cased (ASCII case mapping, so the length is kept), the rest unchanged |
| `CoinGeckoPrices.CapitalizeSameLowerForm` | src/provider/coingecko.rs:132-141 | capitalizing does not change the lower-cased form |
| `CoinGeckoPrices.CapitalizeIdempotent` | src/provider/coingecko.rs:132-141 | capitalizing twice is capitalizing once |
| `CoinGeckoPrices.ResolveIgnoresCase` | src/provider/coingecko.rs:26-58 | resolution depends only on the lower-cased symbol |
| `CoinGeckoPrices.ResolveUnknown` | src/provider/coingecko.rs:55 | a symbol without an alias resolves to its lower-cased self, named by a capitalized form of the same length |
| `CoinGeckoPrices.ResolvedIds` | src/provider/coingecko.rs:76-77 | one id per symbol, in order, each the symbol's resolved id |
| `CoinGeckoPrices.NonEmpty` | src/provider/coingecko.rs:124-128 | `Ok` iff there are prices, with those prices; otherwise `NoResults` |
| `CoinGeckoPrices.GetPrices` | src/provider/coingecko.rs:75-129 | a non-success status gives the status error; an undecodable body gives a Parse error; otherwise the prices of the covered symbols, in input order, or `NoResults` |
| `CoinGeckoPrices.SelectPricesSpec` | src/provider/coingecko.rs:107-122 | one price per symbol whose id is in the response, in input order, none lost, each with the upper-cased symbol, the display name, the price or 0.0, the optional change and market cap, and the upper-cased currency |
| `CoinGeckoPrices.SelectPricesEmpty` | src/provider/coingecko.rs:107-126 | no prices exactly when no symbol's id is in the response |
| `CoinGeckoPrices.ResolveAliasExamples` | src/provider/coingecko.rs:29 | `btc`, `BTC`, `bitcoin` and `Bitcoin` all resolve to (bitcoin, Bitcoin) |
| `CoinGeckoPrices.ResolveUnknownExample` | src/provider/coingecko.rs:55 | `XMR` resolves to (xmr, Xmr) |
| `CoinGeckoPrices.QueryExample` | tests/provider_api_mock.rs:24-30 | `btc eth` asks for ids `bitcoin,ethereum` in `usd` |
| `CoinGeckoPrices.MockBitcoinEntry` | tests/provider_api_mock.rs:38-44 | bitcoin's entry in the mocked response gives its price, change and market cap with symbol BTC |
| `CoinGeckoPrices.MockEthereumEntry` | tests/provider_api_mock.rs:46-52 | ethereum's entry in the mocked response gives its price, change and market cap with symbol ETH |
| `CoinGeckoPrices.MockPricesExample` | tests/provider_api_mock.rs:9-53 | the mocked response gives the two expected prices, in order |
| `CoinGeckoPrices.EmptyResponseExample` | tests/provider_api_mock.rs:99-117 | an empty response is `NoResults` |
| `CoinGeckoPrices.Alias` | src/provider/coingecko.rs:28-54 | definition (no contract): the 26 alias arms, from a lower-cased symbol to (id, display name) |
| `CoinGeckoPrices.Resolve` | src/provider/coingecko.rs:26-58 | definition (no contract): the alias of the lower-cased symbol, else the lower-cased symbol and its capitalized form; properties in `CoinGeckoPrices.ResolveIgnoresCase` and `CoinGeckoPrices.ResolveUnknown` |
| `CoinGeckoPrices.PricesUrl` | src/provider/coingecko.rs:76-83 | definition (no contract): the `/simple/price` URL with the resolved ids joined by commas, the lower-cased currency and the change and market-cap flags; the ids are stated by `CoinGeckoPrices.ResolvedIds` |
| `CoinGeckoPrices.PriceEntry` | src/provider/coingecko.rs:108-121 | definition (no contract): the price one symbol contributes when its id is in the response; its fields are stated by `CoinGeckoPrices.SelectPricesSpec` |
| `CoinGeckoPrices.SelectPrices` | src/provider/coingecko.rs:107-122 | definition (no contract): the entries of the covered symbols in input order; properties in `CoinGeckoPrices.SelectPricesSpec` and `CoinGeckoPrices.SelectPricesEmpty` |
| `CoinMarketCapPrices.UpperSymbols` | src/provider/coinmarketcap.rs:64 | one symbol per input, in order, each upper-cased |
| `CoinMarketCapPrices.ErrorMessage` | src/provider/coinmarketcap.rs:98-103 | there is an error message iff the status carries a non-empty one, and it is that text |
| `CoinMarketCapPrices.Quoted` | src/provider/coinmarketcap.rs:121-132 | a coin gives a price iff it is quoted in the requested currency |
| `CoinMarketCapPrices.CoinStep` | src/provider/coinmarketcap.rs:107-133 | one symbol aborts iff its entry is present and does not decode, and the abort is a Parse error |
| `CoinMarketCapPrices.Finish` | src/provider/coinmarketcap.rs:136-140 | an error passes through unchanged; an empty result set becomes `NoResults`; anything else is returned |
| `CoinMarketCapPrices.GetPrices` | src/provider/coinmarketcap.rs:63-141 | status error, then Parse error, then the API's own error message, then the loop's outcome over the upper-cased symbols |
| `CoinMarketCapPrices.CollectSnoc` | src/provider/coinmarketcap.rs:106-134 | one more symbol extends the loop by exactly one step |
| `CoinMarketCapPrices.CollectErrPersists` | src/provider/coinmarketcap.rs:111-118 | once an entry has aborted the loop, later symbols do not change the outcome |
| `CoinMarketCapPrices.CollectOutcome` | src/provider/coinmarketcap.rs:105-134 | the loop fails iff some requested entry does not decode, always with a Parse error; otherwise it returns the picked prices in symbol order |
| `CoinMarketCapPrices.PickSpec` | src/provider/coinmarketcap.rs:107-132 | a picked price comes from the symbol's decoded coin, or the first coin of an array, quoted in the requested currency with its fields, and the price defaults to 0.0; an absent symbol or an empty array gives nothing |
| `CoinMarketCapPrices.NoResultsWhenNothingPicked` | src/provider/coinmarketcap.rs:136-138 | when every entry decodes, the outcome is `NoResults` iff no symbol yields a price |
| `CoinMarketCapPrices.QueryExample` | tests/provider_api_mock.rs:154-155 | `btc eth` asks for symbols `BTC,ETH` converted to `USD` |
| `CoinMarketCapPrices.MockPricesExample` | tests/provider_api_mock.rs:120-182 | the mocked data gives the two expected prices, in order |
| `CoinMarketCapPrices.EmptyDataExample` | tests/provider_api_mock.rs:227-251 | no data is `NoResults` |
| `CoinMarketCapPrices.ErrorMessageExamples` | src/provider/coinmarketcap.rs:98-103 | a missing status, a missing message or an empty message is no error; a message is reported verbatim |
| `CoinMarketCapPrices.QuotesRequest` | src/provider/coinmarketcap.rs:64-80 | definition (no contract): the `/cryptocurrency/quotes/latest` URL with the upper-cased symbols and currency, and the API-key header; the symbols are stated by `CoinMarketCapPrices.UpperSymbols` |
| `CoinMarketCapPrices.Collect` | src/provider/coinmarketcap.rs:105-134 | definition (no contract): the loop over the symbols, one `CoinMarketCapPrices.CoinStep` each, stopping at the first error; properties in `CoinMarketCapPrices.CollectOutcome` and `CoinMarketCapPrices.CollectErrPersists` |
| `CoinMarketCapPrices.Pick` | src/provider/coinmarketcap.rs:107-132 | definition (no contract): the price a symbol contributes when its entry decodes; properties in `CoinMarketCapPrices.PickSpec` |
| `SearchQuery.TrimEach` | src/main.rs:116 | one trimmed word per input word, in order |
| `SearchQuery.SearchWordsTrimmed` | src/main.rs:112-124 | every query word is non-empty and trimmed |
| `SearchQuery.SearchTokensSpec` | src/main.rs:112-118 | the tokens are the trimmed words without the empty ones, each kept as often as it occurs |
| `SearchQuery.DropKeywordSpec` | src/main.rs:120-124 | only a leading `search`, in any case, is dropped, and only once |
| `SearchQuery.KeywordQueryTrimmed` | src/main.rs:126 | the joined words are already trimmed, so the final trim changes nothing |
| `SearchQuery.ResolveSearchQuery` | src/main.rs:106-130 | the trimmed `--search` value; else, after a leading `search` in any case, the words after it (minus one repeated keyword) joined by spaces; else nothing; any query is trimmed |
| `SearchQuery.JoinedQueryEmpty` | src/main.rs:126 | a keyword query is empty iff no word is left |
| `SearchQuery.SearchTokensKeepAll` | src/main.rs:112-118 | when no word trims to nothing, the tokens are all the trimmed words |
| `SearchQuery.SearchTokensPair` | src/main.rs:112-118 | two words that do not trim to nothing give both trimmed words |
| `SearchQuery.KeywordQueryExample` | src/main.rs:111-124 | `search <k> <w>`, where `k` trims to the keyword, asks for the trimmed `w` alone |
| `SearchQuery.RepeatedKeywordExample` | src/main.rs:120-124 | `search search search` asks for `search` |
| `SearchQuery.ResolveProvider` | src/main.rs:299-304 | the index of a provider whose id matches ignoring case; the unknown-provider error iff none matches |
| `SearchQuery.SearchTarget` | src/main.rs:291-304 | an empty query is refused before the provider id is looked at |
| `SearchQuery.ResolveProviderExample` | src/main.rs:299-304 | on the registry, `STOOQ` selects Stooq |
| `SearchQuery.SearchTokens` | src/main.rs:112-118 | definition (no contract): the trimmed words with the empty ones dropped; properties in `SearchQuery.SearchTokensSpec` |
| `SearchQuery.DropKeyword` | src/main.rs:120-124 | definition (no contract): the tokens without a leading `search` in any case; properties in `SearchQuery.DropKeywordSpec` |
| `SearchQuery.SearchWords` | src/main.rs:112-124 | definition (no contract): the tokens with the keyword dropped; properties in `SearchQuery.SearchWordsTrimmed` and `SearchQuery.JoinedQueryEmpty` |
| `SearchQuery.UnknownProviderError` | src/main.rs:299-304 | definition (no contract): the Config error naming the unknown provider id |
| `Calendar.DayNumberOrder` | src/main.rs:331-341 | day numbers order valid dates as chrono compares them, and equal numbers mean equal dates |
| `Calendar.SubDays` | src/main.rs:66-67 | subtracting `n` days yields a valid date exactly `n` days earlier |
| `Calendar.CheckedSubMonthsSpec` | src/main.rs:68-80 | month subtraction lands `n` months earlier, keeps the day or clamps it to the month's end, and moves strictly back when `n > 0` |
| `Calendar.FormatDateRoundTrip` | src/main.rs:99-100 | a date of years 0 to 9999 renders as ten characters `YYYY-MM-DD` whose digit groups read back as its parts |
| `Calendar.FormatDateInjective` | src/main.rs:99-100 | distinct dates of years 0 to 9999 render differently |
| `Calendar.FormatNegativeYear` | src/main.rs:99-100 | a date of years -9999 to -1 renders as `-`, four zero-padded digits of the year's magnitude, then `-MM-DD`, eleven characters in all |
| `Calendar.CheckedSubMonths` | src/main.rs:68-80 | definition (no contract): the day `n` months earlier, clamped to that month's length; properties in `Calendar.CheckedSubMonthsSpec` |
| `Calendar.FormatDate` | src/main.rs:99-100 | definition (no contract): `%Y-%m-%d`, with chrono's signed year outside 0 to 9999; properties in `Calendar.FormatDateRoundTrip`, `Calendar.FormatNegativeYear` and `Calendar.FormatDateInjective` |
| `ChartRange.ParseLabel` | src/main.rs:31-48 | a parsed command-line value name is the label of the preset it produces |
| `ChartRange.LabelRoundTrip` | src/main.rs:51-62 | every preset reads back from its label; labels are two or three characters without a dot |
| `ChartRange.FromYmd` | src/main.rs:74 | a date is produced iff the triple is a valid date, and it is that date |
| `ChartRange.StartDate` | src/main.rs:64-83 | a start date is a valid date |
| `ChartRange.StartDateSpec` | src/main.rs:64-83 | only `ALL` has no start; YTD starts on January 1; 1D and 5D go back exactly 1 and 5 days; the month presets are month subtraction; the start is never after the end and, except for YTD, strictly before it |
| `ChartRange.FormatChartRangeLabelSpec` | src/main.rs:91-104 | without a start, the preset's label; with one, 22 characters: the start date, `..` and the end date |
| `ChartRange.FormatChartRangeLabelInjective` | src/main.rs:91-104 | date-range labels determine their start and end dates |
| `ChartRange.AsU32` | src/main.rs:230 | the cast `as u32` lands below 2^32 and keeps values already in range |
| `ChartRange.ComputeChartFetchDays` | src/main.rs:225-234 | never more than 36500; 36500 without a start date |
| `ChartRange.FetchDaysSpec` | src/main.rs:225-234 | the day count is between 1 and 36500: the span to today when it lies in that range, 1 when shorter and 36500 when longer |
| `ChartRange.FetchDaysInChronoRange` | src/main.rs:225-234 | for dates in chrono's year range, the day count is always between 1 and 36500 |
| `ChartRange.PlanChart` | src/main.rs:322-357 | a successful plan has a valid end and a valid start, if any |
| `ChartRange.PlanChartErrors` | src/main.rs:322-346 | no symbols, then an end date after today, then an explicit start after the end, each with its own error, in that order |
| `ChartRange.PlanChartSucceeds` | src/main.rs:322-357 | planning succeeds iff there are symbols, the end is not after today and no explicit start is after the end (a preset start never is) |
| `ChartRange.PlanChartDates` | src/main.rs:328-357 | the end defaults to today; the start is the explicit one or the preset's; the day count comes from that start |
| `ChartRange.PlanChartWindow` | src/main.rs:350-356 | the window ends at 23:59:59 of the end date and starts at 00:00:00 of the start date, before the end; without a start it has no start bound |
| `ChartRange.FiatChartTargets` | src/main.rs:361 | the symbols after the base, upper-cased, in order |
| `ChartRange.FiatChartTargetsKnown` | src/main.rs:370 | every target is known fiat iff every symbol after the base is |
| `ChartRange.FiatChartRequestSpec` | src/main.rs:359-382 | no target, then a non-fiat target, then hourly sampling, are refused in that order; otherwise the upper-cased base and targets, all known fiat |
| `ChartRange.Label` | src/main.rs:51-62 | definition (no contract): the preset's label; properties in `ChartRange.LabelRoundTrip` |
| `ChartRange.PresetMonths` | src/main.rs:68-80 | definition (no contract): the months a month-based preset goes back and its whole-day fallback |
| `ChartRange.FormatChartRangeLabel` | src/main.rs:91-104 | definition (no contract): `start..end` with both dates formatted, or the preset's label without a start; properties in `ChartRange.FormatChartRangeLabelSpec` and `ChartRange.FormatChartRangeLabelInjective` |
| `ChartRange.DayStart` | src/main.rs:350-352 | definition (no contract): the timestamp of 00:00:00 of a date; used by `ChartRange.PlanChartWindow` |
| `ChartRange.FiatChartRequest` | src/main.rs:359-382 | definition (no contract): the fiat chart checks and the upper-cased base and targets; properties in `ChartRange.FiatChartRequestSpec` |
| `HistoryWindow.TrimHistory` | src/main.rs:241-245 | narrowing changes only a series' points |
| `HistoryWindow.TrimAll` | src/main.rs:241-245 | every series narrowed, in place and in order |
| `HistoryWindow.RetainInWindow` | src/main.rs:242-244 | the loop keeps exactly the points inside the window, in order |
| `HistoryWindow.NarrowEach` | src/main.rs:241-245 | the loop over series narrows each one |
| `HistoryWindow.RetainWithPoints` | src/main.rs:247 | the loop keeps exactly the series that still have points, in order |
| `HistoryWindow.FilterHistoriesByTimeWindow` | src/main.rs:236-248 | the result is every series narrowed to the window, without the series left empty |
| `HistoryWindow.WindowedInWindow` | src/main.rs:236-248 | every kept series has points, and every kept point lies inside the window |
| `HistoryWindow.WindowedOrder` | src/main.rs:236-248 | the kept series are the narrowed inputs with points, in input order, none lost |
| `HistoryWindow.TrimHistoryPoints` | src/main.rs:242-244 | the kept points are the in-window points, with multiplicity, as a subsequence in the original order |
| `HistoryWindow.WindowedKeepsSeriesWithPoints` | src/main.rs:236-248 | a series with a point inside the window survives, with that point |
| `HistoryWindow.WindowedIdempotent` | src/main.rs:236-248 | filtering an already filtered list changes nothing |
| `HistoryWindow.ChartHistories` | src/main.rs:557-580 | a window success is used; a Config error naming the missing window support falls back to the day-count request; any other error passes through |
| `HistoryWindow.FallbackOnlyOnWindowError` | src/main.rs:568-578 | falling back happens only on a Config error containing the fallback text |
| `HistoryWindow.DefaultWindowFallsBack` | src/main.rs:568-578 | the trait's default window error always falls back |
| `HistoryWindow.DefaultErrorsPassThrough` | src/main.rs:579 | the default history and search errors pass through, unless the id itself holds the fallback text |
| `HistoryWindow.WindowedOrNoResults` | src/main.rs:581-584 | the filtered histories when some remain; `NoResults` iff none do |
| `HistoryWindow.ChartOutcomeInWindow` | src/main.rs:557-584 | a successful chart is non-empty, and all its series have points inside the window |
| `HistoryWindow.TrimHistoryIdempotent` | src/main.rs:242-244 | narrowing a series twice is narrowing it once |
| `HistoryWindow.Windowed` | src/main.rs:236-248 | definition (no contract): every series narrowed, then the empty ones dropped; properties in `HistoryWindow.WindowedInWindow`, `HistoryWindow.WindowedOrder` and `HistoryWindow.WindowedIdempotent` |
| `HistoryWindow.ChartOutcome` | src/main.rs:557-584 | definition (no contract): the window request with its fallback, then the filter and the `NoResults` check; properties in `HistoryWindow.ChartOutcomeInWindow` |
| `Conversions.CryptoConversions` | src/main.rs:482-493 | one conversion per price, in order: amount divided by price, at the price's rate and from its provider |
| `Conversions.PushFiatConversions` | src/main.rs:500-514 | the fiat loop appends exactly the fiat leg's conversions to what was there |
| `Conversions.PushCryptoConversions` | src/main.rs:519-530 | the crypto loop appends exactly one conversion per price |
| `Conversions.CalcMode` | src/main.rs:425-534 | chart mode is refused, then an empty target list; otherwise the outcome of the two legs |
| `Conversions.PartitionCovers` | src/main.rs:441-442 | the partition splits the targets into fiat and non-fiat, losing and adding nothing |
| `Conversions.FiatConversionsSpec` | src/main.rs:465-479 | one conversion per fiat target found in the rate table, in target order, none lost, with the upper-cased code, its name, amount times rate and the inverse rate |
| `Conversions.FiatTargetsWithoutRatesDropped` | src/main.rs:467 | targets missing from the rate table yield nothing |
| `Conversions.CalcOutcomeErrors` | src/main.rs:456-531 | a rates failure is reported when a fiat target exists, then a prices failure when a crypto target exists; the outcome succeeds iff neither applies |
| `Conversions.FiatConversionsAreFiat` | src/main.rs:465-479 | every fiat-leg conversion goes to a known fiat code, from the rates provider |
| `Conversions.CalcOutcomeOrder` | src/main.rs:456-531 | the fiat conversions come first, then the crypto conversions |
| `Conversions.CalcOutcomeExample` | src/main.rs:517-531 | 3.5 EUR at 70000 EUR per BTC converts to 0.00005 BTC |
| `Conversions.SingleFiatTarget` | src/main.rs:496-515 | a single known fiat target in the rate table gives one conversion for it |
| `Conversions.FiatTargets` | src/main.rs:441-442 | definition (no contract): the known fiat targets in input order; properties in `Conversions.PartitionCovers` |
| `Conversions.CryptoTargets` | src/main.rs:441-442 | definition (no contract): the other targets in input order; properties in `Conversions.PartitionCovers` |
| `Conversions.FiatConversion` | src/main.rs:466-478 | definition (no contract): the conversion a fiat target yields when the rate table has its upper-cased code |
| `Conversions.CryptoConversion` | src/main.rs:483-492 | definition (no contract): the conversion a provider price yields |
| `Conversions.FiatConversions` | src/main.rs:465-479 | definition (no contract): the fiat leg; properties in `Conversions.FiatConversionsSpec` and `Conversions.FiatConversionsAreFiat` |
| `Conversions.CalcOutcome` | src/main.rs:456-534 | definition (no contract): the rates error, then the prices error, else the fiat conversions followed by the crypto conversions; properties in `Conversions.CalcOutcomeErrors` and `Conversions.CalcOutcomeOrder` |
| `Text.TrimSpec` | src/main.rs:108 | neither end of a trimmed string is white space |
| `Text.TrimIdempotent` | src/main.rs:126 | trimming twice is trimming once |
| `Text.JoinTrimmed` | src/main.rs:126 | trimmed non-empty words joined by spaces give a trimmed, non-empty string |
| `Text.EqIgnoreCaseSameUpper` | src/main.rs:111 | strings equal ignoring ASCII case have the same upper-case form |

## Left out

- Key external pieces are left out:
  - HTTP (reqwest): each call is an input response plus a decoded body.
  - JSON decoding (serde's own error texts): a body is "decoded into the expected shape" or "malformed with a reason".
  - Logging (tracing), the output renderers and printing (JSON and table), and argument parsing (clap).
  - The configuration file.
- `tokio::join!` in calc mode is left out:
  - The two legs of a calc command are given as results.
  - The concurrency is left out, because only the order in which `?` inspects the results shows.
- `Provider.AvailableProviders` and the environment: the `COINMARKETCAP_API_KEY` lookup is the `envKey` parameter.
- Modules are missing from this model:
  - src/error.rs is not part of this model. Its four error kinds are `Errors.Error`.
  - The frankfurter, stooq, yahoo and cache provider modules are not part of this model.
  - `calc::fetch_fiat_rates` and the Frankfurter response shape are left out for the same reason.
  - The id `yahoo` is assumed for Yahoo Finance and `stooq` for Stooq.
- `Calc.Multiply`, `Calc.Divide`: conversions use exact real arithmetic.
  - f64 rounding and overflow to infinity are not modelled.
  - Division by zero is modelled: a 0.0 price gives an infinity or NaN.
- `Calc.ParseFiatAmount`: the number before the code is read exactly.
  - Rounding to the nearest f64 is not modelled; only values above `f64::MAX` count as not finite.
  - Underflow is not modelled either: a positive decimal below the smallest f64 subnormal (such as `0.` followed by 400 zeros and `1USD`) is accepted here, while Rust parses it to 0.0 and rejects it.
  - A number prefix never contains a letter, so `inf`, `nan` and exponents cannot occur.
- `Text.Upper`, `Text.Lower`: only ASCII letters change case.
  - Rust's `to_uppercase`/`to_lowercase` also map non-ASCII letters (and may change the length).
  - `eq_ignore_ascii_case` is exact.
- `CoinGeckoPrices.Capitalize`: with ASCII case mapping the length is kept. Rust's `to_uppercase` of the first character can lengthen the string (`ß` becomes `SS`), and it also upper-cases non-ASCII letters.
- `Calendar`: years are unbounded.
  - chrono's date range (years -262143 to 262142) is not modelled, so `checked_sub_months` never fails.
  - The `.or(Some(end - Duration::days(n)))` fallbacks in `start_date` are therefore never taken.
  - They are still evaluated, as in the source.
- `ChartRange.PlanChart`: the `"invalid chart end date"` error (src/main.rs:353-355) cannot occur for a valid date, so the model has no branch for it.
- Timestamps are seconds counted from 0001-01-01T00:00:00 UTC, not from the Unix epoch.
  - The window comparisons only use their order, which is the same.
- Fixed inputs:
  - `Utc::now()` is the single parameter `today`, used for both the future-end check and the day count.
  - The `timestamp` fields of prices and conversions (also `Utc::now()`) are omitted.
- `parse_chart_end_date` (clap's date parser) is left out; dates arrive as valid `Calendar.Date` values.
- `SamplingArg` and its `From` conversion (src/main.rs:14-28) are left out; the model uses `Provider.HistoryInterval` directly, as the conversion is the identity on the three cases.
- Some steps of `run` only call a provider and print:
  - the `--list-providers` listing;
  - the search call itself (`search_tickers` on the chosen provider);
  - the plain price mode that prints `get_prices`' result.
  - These compute nothing beyond what the modelled provider functions return, so they are left out.
- `Calc.FiatName`: the `match` of src/calc.rs:72-113 is written as a table of (code, name) rows, looked up in order.
  - The table is proved to list exactly the known codes, in the same order.
- `Conversions.CalcMode`: the `unreachable!()` arm (src/main.rs:533) has no counterpart.
  - The two legs are selected by `if`s. `Conversions.PartitionCovers` shows that a non-empty target list always gives at least one leg.
- In-place `Vec` mutation is modelled on values. `retain`, `push` and `remove(0)` return new sequences, so aliasing of the vectors is not modelled.
