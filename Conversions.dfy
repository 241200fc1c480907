/**
 * Calc mode of src/main.rs (`cryptoprice 3.5EUR xmr usd`): the targets are
 * split into fiat codes and crypto symbols, the fiat ones are converted
 * with exchange rates and the crypto ones with provider prices, and the
 * conversions come out fiat first, each leg in its own order. The two
 * fetches are given as their outcomes: `rates` is what the exchange-rate
 * request returns for the fiat targets and `prices` what the provider
 * returns for the crypto targets; each is consulted only when its leg has targets.
 */
module Conversions {
  import opened Wrappers
  import opened Errors
  import opened Text
  import opened Sequences
  import opened Calc
  import opened Provider

  const RatesProvider: string := "Frankfurter/ECB"

  const ChartInCalcMessage: string := "chart mode is only available for direct symbol lookup"
  const CalcNeedsTargetMessage: string := "calc mode requires at least one target coin -- usage: cryptoprice 3.5EUR xmr"

  function IsFiatTarget(t: string): bool { IsKnownFiat(t) }

  function IsCryptoTarget(t: string): bool { !IsKnownFiat(t) }

  /** The first half of `partition(is_known_fiat)`: the fiat targets in input order. */
  function FiatTargets(targets: seq<string>): seq<string> {
    Filter(targets, IsFiatTarget)
  }

  /** The second half of the partition: the other targets in input order. */
  function CryptoTargets(targets: seq<string>): seq<string> {
    Filter(targets, IsCryptoTarget)
  }

  /** The conversion a fiat target yields when the rate table has its upper-cased code. */
  function FiatConversion(fiat: FiatAmount, rates: map<string, real>, t: string): Option<Conversion> {
    var upper := Upper(t);
    if upper in rates then
      Some(Conversion(fiat.amount, fiat.currency, upper, FiatName(upper),
                      Multiply(fiat.amount, rates[upper]), Divide(1.0, rates[upper]), RatesProvider))
    else None
  }

  function FiatLeg(fiat: FiatAmount, rates: map<string, real>): string -> Option<Conversion> {
    t => FiatConversion(fiat, rates, t)
  }

  /** The conversion a provider price yields. */
  function CryptoConversion(fiat: FiatAmount, p: CoinPrice): Conversion {
    Conversion(fiat.amount, fiat.currency, p.symbol, p.name, Divide(fiat.amount, p.price), Finite(p.price), p.provider)
  }

  /** The fiat leg's conversions: one per fiat target found in the rate table, in target order. */
  function FiatConversions(fiat: FiatAmount, fiatTargets: seq<string>, rates: map<string, real>): seq<Conversion> {
    FilterMap(fiatTargets, FiatLeg(fiat, rates))
  }

  /** The crypto leg's conversions: one per returned price, in the order returned. */
  function CryptoConversions(fiat: FiatAmount, prices: seq<CoinPrice>): (r: seq<Conversion>)
    ensures |r| == |prices|
    ensures forall k :: 0 <= k < |prices| ==> r[k] == CryptoConversion(fiat, prices[k])
  {
    seq(|prices|, k requires 0 <= k < |prices| => CryptoConversion(fiat, prices[k]))
  }

  /**
   * The outcome of calc mode for a non-empty target list: the rate error
   * when the fiat leg runs and fails, else the price error when the crypto
   * leg runs and fails, else the fiat conversions followed by the crypto ones.
   */
  function CalcOutcome(fiat: FiatAmount, targets: seq<string>,
                       rates: Result<map<string, real>>, prices: Result<seq<CoinPrice>>): Result<seq<Conversion>>
  {
    var fiatTargets := FiatTargets(targets);
    var cryptoTargets := CryptoTargets(targets);
    if fiatTargets != [] && rates.Err? then Err(rates.error)
    else if cryptoTargets != [] && prices.Err? then Err(prices.error)
    else
      Ok((if fiatTargets != [] then FiatConversions(fiat, fiatTargets, rates.value) else [])
         + (if cryptoTargets != [] then CryptoConversions(fiat, prices.value) else []))
  }

  /** The fiat loop: a conversion for each target the rate table has, pushed in target order. */
  method PushFiatConversions(fiat: FiatAmount, fiatTargets: seq<string>, rates: map<string, real>,
                             conversions: seq<Conversion>)
    returns (result: seq<Conversion>)
    ensures result == conversions + FiatConversions(fiat, fiatTargets, rates)
  {
    result := conversions;
    for i := 0 to |fiatTargets|
      invariant result == conversions + FiatConversions(fiat, fiatTargets[..i], rates)
    {
      ghost var done := FiatConversions(fiat, fiatTargets[..i], rates);
      assert fiatTargets[..i + 1] == fiatTargets[..i] + [fiatTargets[i]];
      FilterMapSnoc(fiatTargets[..i], fiatTargets[i], FiatLeg(fiat, rates));
      var upper := Upper(fiatTargets[i]);
      if upper in rates {
        var rate := rates[upper];
        var c := Conversion(fiat.amount, fiat.currency, upper, FiatName(upper),
                            Multiply(fiat.amount, rate), Divide(1.0, rate), RatesProvider);
        assert FiatConversion(fiat, rates, fiatTargets[i]) == Some(c);
        AppendAssoc(conversions, done, [c]);
        result := result + [c];
      } else {
        assert done + [] == done;
      }
    }
    assert fiatTargets[..|fiatTargets|] == fiatTargets;
  }

  /** The crypto loop: a conversion for each price, pushed in the order returned. */
  method PushCryptoConversions(fiat: FiatAmount, prices: seq<CoinPrice>, conversions: seq<Conversion>)
    returns (result: seq<Conversion>)
    ensures result == conversions + CryptoConversions(fiat, prices)
  {
    result := conversions;
    for i := 0 to |prices|
      invariant result == conversions + CryptoConversions(fiat, prices[..i])
    {
      var p := prices[i];
      assert CryptoConversions(fiat, prices[..i + 1]) == CryptoConversions(fiat, prices[..i]) + [CryptoConversion(fiat, p)];
      result := result + [Conversion(fiat.amount, fiat.currency, p.symbol, p.name,
                                     Divide(fiat.amount, p.price), Finite(p.price), p.provider)];
    }
    assert prices[..|prices|] == prices;
  }

  /**
   * The calc-mode block of `run`: `--chart` is refused, an empty target
   * list is refused, and otherwise the match on which legs have targets.
   */
  method CalcMode(fiat: FiatAmount, chart: bool, targets: seq<string>,
                  rates: Result<map<string, real>>, prices: Result<seq<CoinPrice>>)
    returns (r: Result<seq<Conversion>>)
    ensures chart ==> r == Err(Config(ChartInCalcMessage))
    ensures !chart && targets == [] ==> r == Err(Config(CalcNeedsTargetMessage))
    ensures !chart && targets != [] ==> r == CalcOutcome(fiat, targets, rates, prices)
  {
    if chart {
      return Err(Config(ChartInCalcMessage));
    }
    if targets == [] {
      return Err(Config(CalcNeedsTargetMessage));
    }
    var fiatTargets := FiatTargets(targets);
    var cryptoTargets := CryptoTargets(targets);
    PartitionCovers(targets);
    var conversions: seq<Conversion> := [];
    if fiatTargets != [] && cryptoTargets != [] {
      // Both legs: the rate outcome is examined first.
      if rates.Err? {
        return Err(rates.error);
      }
      conversions := PushFiatConversions(fiat, fiatTargets, rates.value, conversions);
      assert conversions == FiatConversions(fiat, fiatTargets, rates.value);
      if prices.Err? {
        return Err(prices.error);
      }
      conversions := PushCryptoConversions(fiat, prices.value, conversions);
    } else if fiatTargets != [] {
      if rates.Err? {
        return Err(rates.error);
      }
      conversions := PushFiatConversions(fiat, fiatTargets, rates.value, conversions);
      assert conversions == FiatConversions(fiat, fiatTargets, rates.value) + [];
    } else {
      // Only crypto targets: both halves empty cannot happen for a non-empty target list.
      assert cryptoTargets != [];
      if prices.Err? {
        return Err(prices.error);
      }
      conversions := PushCryptoConversions(fiat, prices.value, conversions);
      assert conversions == [] + CryptoConversions(fiat, prices.value);
    }
    return Ok(conversions);
  }

  // ---------------------------------------------------------------------
  // Properties of calc mode
  // ---------------------------------------------------------------------

  /**
   * The partition puts each target in exactly one half, as often as it
   * occurs, and keeps input order within each half.
   */
  lemma PartitionCovers(targets: seq<string>)
    ensures |FiatTargets(targets)| + |CryptoTargets(targets)| == |targets|
    ensures multiset(FiatTargets(targets)) + multiset(CryptoTargets(targets)) == multiset(targets)
    ensures forall k :: 0 <= k < |FiatTargets(targets)| ==> IsKnownFiat(FiatTargets(targets)[k])
    ensures forall k :: 0 <= k < |CryptoTargets(targets)| ==> !IsKnownFiat(CryptoTargets(targets)[k])
  {
    FilterMultiset(targets, IsFiatTarget);
    FilterMultiset(targets, IsCryptoTarget);
    var f, c := FiatTargets(targets), CryptoTargets(targets);
    assert multiset(f) + multiset(c) == multiset(targets);
    assert |multiset(f) + multiset(c)| == |multiset(targets)|;
  }

  /**
   * Each fiat conversion belongs to a fiat target whose upper-cased code is
   * in the rate table: it carries that code, its display name, the amount
   * times the rate, the inverse rate and the exchange-rate provider; and
   * there is one for each target the table has, none for the others.
   */
  lemma FiatConversionsSpec(fiat: FiatAmount, fiatTargets: seq<string>, rates: map<string, real>)
    ensures var cs := FiatConversions(fiat, fiatTargets, rates);
      var idx := Hits(fiatTargets, FiatLeg(fiat, rates));
      && |cs| == |idx|
      && (forall k, l :: 0 <= k < l < |idx| ==> idx[k] < idx[l])
      && (forall i :: 0 <= i < |fiatTargets| && Upper(fiatTargets[i]) in rates ==> i in idx)
      && forall k :: 0 <= k < |cs| ==>
           && idx[k] < |fiatTargets|
           && var upper := Upper(fiatTargets[idx[k]]);
              && upper in rates
              && cs[k] == Conversion(fiat.amount, fiat.currency, upper, FiatName(upper),
                                     Multiply(fiat.amount, rates[upper]), Divide(1.0, rates[upper]), RatesProvider)
  {
    FilterMapAtHits(fiatTargets, FiatLeg(fiat, rates));
    var idx := Hits(fiatTargets, FiatLeg(fiat, rates));
    forall i | 0 <= i < |fiatTargets| && Upper(fiatTargets[i]) in rates
      ensures FiatLeg(fiat, rates)(fiatTargets[i]).Some?
    {
    }
  }

  /** A fiat target missing from the rate table is dropped without an error. */
  lemma FiatTargetsWithoutRatesDropped(fiat: FiatAmount, fiatTargets: seq<string>, rates: map<string, real>)
    requires forall i :: 0 <= i < |fiatTargets| ==> Upper(fiatTargets[i]) !in rates
    ensures FiatConversions(fiat, fiatTargets, rates) == []
  {
    FilterMapEmpty(fiatTargets, FiatLeg(fiat, rates));
  }

  /**
   * Calc mode fails exactly when a leg that has targets fails; the rate
   * error wins when both legs fail, and the price error is returned when
   * only the crypto leg fails.
   */
  lemma CalcOutcomeErrors(fiat: FiatAmount, targets: seq<string>,
                          rates: Result<map<string, real>>, prices: Result<seq<CoinPrice>>)
    requires targets != []
    ensures var r := CalcOutcome(fiat, targets, rates, prices);
      var hasFiat := exists i :: 0 <= i < |targets| && IsKnownFiat(targets[i]);
      var hasCrypto := exists i :: 0 <= i < |targets| && !IsKnownFiat(targets[i]);
      && (hasFiat && rates.Err? ==> r == Err(rates.error))
      && (!(hasFiat && rates.Err?) && hasCrypto && prices.Err? ==> r == Err(prices.error))
      && (r.Ok? <==> !(hasFiat && rates.Err?) && !(hasCrypto && prices.Err?))
  {
    FilterEmpty(targets, IsFiatTarget);
    FilterEmpty(targets, IsCryptoTarget);
  }

  /** Every fiat conversion comes from the exchange-rate provider and targets an upper-case fiat code. */
  lemma FiatConversionsAreFiat(fiat: FiatAmount, targets: seq<string>, rates: map<string, real>)
    ensures var cs := FiatConversions(fiat, FiatTargets(targets), rates);
      forall k :: 0 <= k < |cs| ==> cs[k].provider == RatesProvider && IsKnownFiat(cs[k].toSymbol)
  {
    var ft := FiatTargets(targets);
    var cs := FiatConversions(fiat, ft, rates);
    FiatConversionsSpec(fiat, ft, rates);
    var idx := Hits(ft, FiatLeg(fiat, rates));
    forall k | 0 <= k < |cs|
      ensures cs[k].provider == RatesProvider && IsKnownFiat(cs[k].toSymbol)
    {
      assert IsFiatTarget(ft[idx[k]]);
      UpperIdempotent(ft[idx[k]]);
    }
  }

  /**
   * A successful calc lists every fiat conversion before every crypto
   * conversion: first the fiat targets the rate table has, then one per
   * price when there are crypto targets.
   */
  lemma CalcOutcomeOrder(fiat: FiatAmount, targets: seq<string>,
                         rates: Result<map<string, real>>, prices: Result<seq<CoinPrice>>)
    requires targets != []
    requires CalcOutcome(fiat, targets, rates, prices).Ok?
    ensures var cs := CalcOutcome(fiat, targets, rates, prices).value;
      var fs := if FiatTargets(targets) != [] then FiatConversions(fiat, FiatTargets(targets), rates.value) else [];
      && |fs| <= |cs| && cs[..|fs|] == fs
      && (forall k :: 0 <= k < |fs| ==> cs[k].provider == RatesProvider && IsKnownFiat(cs[k].toSymbol))
      && (CryptoTargets(targets) != [] ==> cs[|fs|..] == CryptoConversions(fiat, prices.value))
      && (CryptoTargets(targets) == [] ==> cs == fs)
  {
    if FiatTargets(targets) != [] {
      FiatConversionsAreFiat(fiat, targets, rates.value);
    }
  }

  /** The calc of the source's usage text: `3.5EUR` into a fiat code and a coin. */
  lemma CalcOutcomeExample()
    ensures var fiat := FiatAmount(3.5, "EUR");
      var btc := CoinPrice("BTC", "Bitcoin", 70000.0, None, None, "EUR", "CoinGecko");
      CalcOutcome(fiat, ["btc"], Err(Api("unused")), Ok([btc]))
        == Ok([Conversion(3.5, "EUR", "BTC", "Bitcoin", Finite(0.00005), Finite(70000.0), "CoinGecko")])
  {
    var fiat := FiatAmount(3.5, "EUR");
    var btc := CoinPrice("BTC", "Bitcoin", 70000.0, None, None, "EUR", "CoinGecko");
    TickersAreNotFiat();
    assert Upper("btc") == "BTC";
    assert !IsKnownFiat("btc");
    assert ["btc"][..0] == [];
    assert FiatTargets(["btc"]) == [];
    assert CryptoTargets(["btc"]) == ["btc"];
    assert CryptoConversions(fiat, [btc]) == [CryptoConversion(fiat, btc)];
    assert Divide(3.5, 70000.0) == Finite(0.00005);
    var c := Conversion(3.5, "EUR", "BTC", "Bitcoin", Finite(0.00005), Finite(70000.0), "CoinGecko");
    assert CryptoConversion(fiat, btc) == c;
    assert [] + [c] == [c];
  }

  /**
   * A calc into one fiat code the rate table has gives that one conversion
   * (`100EUR usd` at 1.25 gives 125 dollars at 0.8 euro each), whatever
   * the crypto leg would have returned: it has no targets and is not consulted.
   */
  lemma SingleFiatTarget(fiat: FiatAmount, t: string, rates: map<string, real>, prices: Result<seq<CoinPrice>>)
    requires IsKnownFiat(t) && Upper(t) in rates
    ensures CalcOutcome(fiat, [t], Ok(rates), prices)
      == Ok([Conversion(fiat.amount, fiat.currency, Upper(t), FiatName(Upper(t)),
                        Multiply(fiat.amount, rates[Upper(t)]), Divide(1.0, rates[Upper(t)]), RatesProvider)])
  {
    SingleFiatLegs(t);
    var c := FiatConversion(fiat, rates, t).value;
    FilterMapSingleton(t, FiatLeg(fiat, rates));
    assert [c] + [] == [c];
  }

  /** A lone fiat target goes to the fiat leg and leaves the crypto leg without targets. */
  lemma SingleFiatLegs(t: string)
    requires IsKnownFiat(t)
    ensures FiatTargets([t]) == [t] && CryptoTargets([t]) == []
  {
    FilterSingleton(t, IsFiatTarget);
    FilterSingleton(t, IsCryptoTarget);
  }
}
