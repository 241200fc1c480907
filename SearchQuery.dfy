/**
 * Search mode of src/main.rs: `resolve_search_query`, which takes the query
 * from `--search` or from positional words after a leading `search`, and
 * the checks `run` makes before a search (or any provider call): the
 * query may not be empty and the provider id must name a registered provider.
 */
module SearchQuery {
  import opened Wrappers
  import opened Errors
  import opened Text
  import opened Sequences
  import opened Provider

  const SearchKeyword: string := "search"

  const SearchNeedsQueryMessage: string := "search mode requires a query -- usage: cryptoprice --provider stooq --search apple"

  /** Each token trimmed, in order. */
  function TrimEach(tokens: seq<string>): (r: seq<string>)
    ensures |r| == |tokens|
    ensures forall i :: 0 <= i < |tokens| ==> r[i] == Trim(tokens[i])
  {
    seq(|tokens|, i requires 0 <= i < |tokens| => Trim(tokens[i]))
  }

  function IsNonEmpty(s: string): bool { s != [] }

  /** `.map(trim).filter(non-empty).collect()` over the words after the keyword. */
  function SearchTokens(rest: seq<string>): seq<string> {
    Filter(TrimEach(rest), IsNonEmpty)
  }

  /** The word `search`, in any ASCII case. */
  predicate IsKeyword(s: string) {
    EqIgnoreAsciiCase(s, SearchKeyword)
  }

  /** `tokens.remove(0)` when the first token is the keyword again. */
  function DropKeyword(tokens: seq<string>): seq<string> {
    if tokens != [] && IsKeyword(tokens[0]) then tokens[1..] else tokens
  }

  /** The query words: the tokens with one leading `search` (in any case) removed. */
  function SearchWords(rest: seq<string>): seq<string> {
    DropKeyword(SearchTokens(rest))
  }

  /** The words of a query are non-empty and have no white space at either end. */
  lemma SearchWordsTrimmed(rest: seq<string>)
    ensures forall i :: 0 <= i < |SearchWords(rest)| ==> SearchWords(rest)[i] != [] && IsTrimmed(SearchWords(rest)[i])
  {
    var t := TrimEach(rest);
    forall i | 0 <= i < |t|
      ensures IsTrimmed(t[i])
    {
      TrimSpec(rest[i]);
    }
    FilterKeepsProperty(t, IsNonEmpty, IsTrimmed);
  }

  /**
   * The tokens are the trimmed words with the empty ones dropped, each as
   * often as it occurs.
   */
  lemma SearchTokensSpec(rest: seq<string>)
    ensures forall x :: multiset(SearchTokens(rest))[x] == (if x != [] then multiset(TrimEach(rest))[x] else 0)
  {
    FilterMultiset(TrimEach(rest), IsNonEmpty);
  }

  /**
   * Only a leading keyword is dropped, and only one: the words are all of
   * the tokens, or all but a first one that reads `search` in some case.
   */
  lemma DropKeywordSpec(tokens: seq<string>)
    ensures tokens != [] && IsKeyword(tokens[0]) ==> tokens == [tokens[0]] + DropKeyword(tokens)
    ensures tokens == [] || !IsKeyword(tokens[0]) ==> DropKeyword(tokens) == tokens
    ensures |DropKeyword(tokens)| >= |tokens| - 1
  {
    if tokens != [] {
      assert tokens == [tokens[0]] + tokens[1..];
    }
  }

  /** The words joined by single spaces are already trimmed, so the final `trim` changes nothing. */
  lemma KeywordQueryTrimmed(rest: seq<string>)
    ensures IsTrimmed(Join(SearchWords(rest), " "))
    ensures Trim(Join(SearchWords(rest), " ")) == Join(SearchWords(rest), " ")
  {
    SearchWordsTrimmed(rest);
    JoinTrimmed(SearchWords(rest));
    TrimOfTrimmed(Join(SearchWords(rest), " "));
  }

  /**
   * `resolve_search_query`: the trimmed `--search` value when given;
   * otherwise, when the first symbol is `search` in some case, the words
   * after it joined by single spaces; otherwise nothing.
   */
  method ResolveSearchQuery(search: Option<string>, symbols: seq<string>) returns (r: Option<string>)
    ensures search.Some? ==> r == Some(Trim(search.value))
    ensures search.None? && symbols != [] && IsKeyword(symbols[0]) ==>
      r == Some(Join(SearchWords(symbols[1..]), " "))
    ensures search.None? && !(symbols != [] && IsKeyword(symbols[0])) ==> r == None
    ensures r.Some? ==> IsTrimmed(r.value)
  {
    if search.Some? {
      TrimSpec(search.value);
      return Some(Trim(search.value));
    }
    if symbols != [] && IsKeyword(symbols[0]) {
      var rest := symbols[1..];
      var tokens := SearchTokens(rest);
      if tokens != [] && IsKeyword(tokens[0]) {
        tokens := tokens[1..];
      }
      assert tokens == SearchWords(rest);
      KeywordQueryTrimmed(rest);
      return Some(Trim(Join(tokens, " ")));
    }
    return None;
  }

  /** A keyword query is empty exactly when no word follows the keyword(s). */
  lemma JoinedQueryEmpty(rest: seq<string>)
    ensures Join(SearchWords(rest), " ") == [] <==> SearchWords(rest) == []
  {
    SearchWordsTrimmed(rest);
    JoinTrimmed(SearchWords(rest));
  }

  /** When no word trims to nothing, the tokens are all the trimmed words. */
  lemma SearchTokensKeepAll(rest: seq<string>)
    requires forall i :: 0 <= i < |rest| ==> Trim(rest[i]) != []
    ensures SearchTokens(rest) == TrimEach(rest)
  {
    FilterAllKept(TrimEach(rest), IsNonEmpty);
  }

  /** Two words that do not trim to nothing give two tokens. */
  lemma SearchTokensPair(a: string, b: string)
    requires Trim(a) != [] && Trim(b) != []
    ensures SearchTokens([a, b]) == [Trim(a), Trim(b)]
  {
    var rest := [a, b];
    forall i | 0 <= i < |rest|
      ensures Trim(rest[i]) != []
    {
      if i == 0 {
        assert rest[i] == a;
      } else {
        assert rest[i] == b;
      }
    }
    SearchTokensKeepAll(rest);
    var t := TrimEach(rest);
    assert t[0] == Trim(a) && t[1] == Trim(b);
  }

  /**
   * `search <a> <b>` where `a` trims to the keyword again and `b` to a word
   * asks for that word alone (`search search  bitcoin ` asks for `bitcoin`).
   */
  lemma KeywordQueryExample(a: string, b: string)
    requires IsKeyword(Trim(a)) && Trim(b) != []
    ensures SearchWords([a, b]) == [Trim(b)]
  {
    assert |Lower(Trim(a))| == |Lower(SearchKeyword)|;
    SearchTokensPair(a, b);
    assert [Trim(a), Trim(b)][1..] == [Trim(b)];
  }

  /** A repeated keyword is dropped only once. */
  lemma RepeatedKeywordExample(k: string)
    requires k != [] && IsTrimmed(k) && IsKeyword(k)
    ensures SearchWords([k, k]) == [k]
  {
    TrimOfTrimmed(k);
    SearchTokensPair(k, k);
    assert [k, k][1..] == [k];
  }

  // ---------------------------------------------------------------------
  // Checks before a provider call
  // ---------------------------------------------------------------------

  function UnknownProviderError(id: string): Error {
    Config("unknown provider '" + id + "' -- use --list-providers to see options")
  }

  /** `get_provider(..).ok_or_else(..)`: the provider's index or the unknown-provider error. */
  function ResolveProvider(providers: seq<ProviderKind>, id: string): (r: Result<nat>)
    ensures r.Ok? ==> r.value < |providers| && EqIgnoreAsciiCase(Id(providers[r.value]), id)
    ensures r.Err? <==> forall j :: 0 <= j < |providers| ==> !EqIgnoreAsciiCase(Id(providers[j]), id)
    ensures r.Err? ==> r.error == UnknownProviderError(id)
  {
    match GetProvider(providers, id)
    case None => Err(UnknownProviderError(id))
    case Some(i) => Ok(i)
  }

  /**
   * Search mode's checks: an empty query is refused before the provider id
   * is looked at; then the id must name a provider.
   */
  function SearchTarget(providers: seq<ProviderKind>, query: string, id: string): (r: Result<nat>)
    ensures query == [] ==> r == Err(Config(SearchNeedsQueryMessage))
    ensures query != [] ==> r == ResolveProvider(providers, id)
  {
    if query == [] then Err(Config(SearchNeedsQueryMessage)) else ResolveProvider(providers, id)
  }

  /** With the registry, every id is resolved case-insensitively, and `stooq` selects Stooq. */
  lemma ResolveProviderExample(key: Option<string>)
    ensures ResolveProvider([CoinGecko, Stooq, YahooFinance, CoinMarketCap(key)], "STOOQ") == Ok(1)
  {
    var registry := [CoinGecko, Stooq, YahooFinance, CoinMarketCap(key)];
    assert EqIgnoreAsciiCase("STOOQ", Id(registry[1])) by {
      assert Lower("STOOQ") == "stooq";
    }
    GetProviderFindsRegistered(key, 1, "STOOQ");
  }
}
