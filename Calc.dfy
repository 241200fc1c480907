/**
 * The fiat lexer of src/calc.rs: the table of recognised fiat codes, the
 * parser for `<number><fiat code>` tokens such as `3.5EUR`, the
 * case-insensitive fiat test and the display names; also the records the
 * conversion engine produces.
 */
module Calc {
  import opened Wrappers
  import opened Text

  /** The recognised fiat currency codes, in the order of the source table. */
  const KnownFiat: seq<string> := [
    "USD", "EUR", "GBP", "JPY", "CNY", "CAD", "AUD", "CHF", "KRW", "INR", "BRL", "RUB", "TRY",
    "ZAR", "MXN", "SGD", "HKD", "NOK", "SEK", "DKK", "NZD", "PLN", "THB", "TWD", "CZK", "HUF",
    "ILS", "PHP", "MYR", "ARS", "CLP", "COP", "IDR", "SAR", "AED", "NGN", "VND", "PKR", "BDT",
    "EGP"
  ]

  /** A parsed fiat amount such as `3.5EUR`. */
  datatype FiatAmount = FiatAmount(amount: real, currency: string)

  /**
   * An IEEE double as far as the conversion arithmetic needs one: a finite
   * value, or what a division by zero yields.
   */
  datatype F64 = Finite(value: real) | PlusInfinity | MinusInfinity | NotANumber

  /** IEEE division of two finite doubles (rounding is not modelled). */
  function Divide(a: real, b: real): F64 {
    if b != 0.0 then Finite(a / b)
    else if a > 0.0 then PlusInfinity
    else if a < 0.0 then MinusInfinity
    else NotANumber
  }

  /** IEEE multiplication of two finite doubles (rounding and overflow are not modelled). */
  function Multiply(a: real, b: real): F64 {
    Finite(a * b)
  }

  /** Result of a fiat-to-fiat or fiat-to-crypto conversion. */
  datatype Conversion = Conversion(
    fromAmount: real,
    fromCurrency: string,
    toSymbol: string,
    toName: string,
    toAmount: F64,
    rate: F64,
    provider: string)

  /** `f64::MAX`, (2^53 - 1) * 2^971, written out exactly. */
  const F64Max: real := 179769313486231570814527423731704356798070567525844996598917476803157260780028538760589558632766878171540458953514382464234321326889464182768467546703537516986049910576551282076245490090389328944075868508455133942304583236903222948165808559332123348274797826204144723168738177180919299881250404026184124858368.0

  /** `f64::is_finite` of the parsed value: magnitudes beyond `f64::MAX` parse to an infinity. */
  predicate IsFinite(v: real) {
    -F64Max <= v <= F64Max
  }

  // ---------------------------------------------------------------------
  // Numbers
  // ---------------------------------------------------------------------

  /** Position of the first '.' in `s`, if any. */
  function FirstDot(s: string): (r: Option<nat>)
    ensures r.Some? ==> r.value < |s| && s[r.value] == '.' && '.' !in s[..r.value]
    ensures r.None? ==> '.' !in s
  {
    if s == [] then None
    else if s[0] == '.' then Some(0)
    else match FirstDot(s[1..])
      case None => None
      case Some(i) => assert s[..i + 1] == [s[0]] + s[1..][..i]; Some(i + 1)
  }

  /**
   * The value of an unsigned decimal: digits with at most one '.', at least
   * one digit in all (`5`, `5.`, `.5`, `3.25`).
   */
  function UnsignedDecimal(s: string): (r: Option<real>)
    ensures r.Some? ==> r.value >= 0.0
  {
    match FirstDot(s)
    case None =>
      if s != [] && AllDigits(s) then Some(DigitsValue(s) as real) else None
    case Some(i) =>
      var whole, frac := s[..i], s[i + 1..];
      if AllDigits(whole) && AllDigits(frac) && |whole| + |frac| > 0 then
        Some(DigitsValue(whole) as real + DigitsValue(frac) as real / Pow10(|frac|) as real)
      else None
  }

  /**
   * `str::parse::<f64>` on a string without ASCII letters: an optional sign
   * and an unsigned decimal. (Exponents, `inf` and `nan` need letters, so
   * they cannot occur in the text before a fiat code.)
   */
  function ParseDecimal(s: string): Option<real> {
    if s != [] && (s[0] == '+' || s[0] == '-') then
      match UnsignedDecimal(s[1..])
      case None => None
      case Some(v) => if s[0] == '-' then Some(-v) else Some(v)
    else UnsignedDecimal(s)
  }

  // ---------------------------------------------------------------------
  // The lexer
  // ---------------------------------------------------------------------

  /** `str::find(char::is_ascii_alphabetic)`: the position of the first ASCII letter. */
  function FirstAsciiAlpha(s: string): (r: Option<nat>)
    ensures r.Some? ==> r.value < |s| && IsAsciiAlpha(s[r.value])
                        && forall j :: 0 <= j < r.value ==> !IsAsciiAlpha(s[j])
    ensures r.None? ==> forall j :: 0 <= j < |s| ==> !IsAsciiAlpha(s[j])
  {
    if s == [] then None
    else if IsAsciiAlpha(s[0]) then Some(0)
    else match FirstAsciiAlpha(s[1..])
      case None => None
      case Some(i) => Some(i + 1)
  }

  /** `is_known_fiat`: the upper-cased string is in the table. */
  predicate IsKnownFiat(s: string) {
    Upper(s) in KnownFiat
  }

  /**
   * `parse_fiat_amount`: split at the first ASCII letter, require a
   * non-empty number before it, a known code (in any case) from it to the
   * end and a positive finite value.
   */
  function ParseFiatAmount(s: string): (r: Option<FiatAmount>)
    ensures (forall j :: 0 <= j < |s| ==> !IsAsciiAlpha(s[j])) ==> r == None
    ensures |s| > 0 && IsAsciiAlpha(s[0]) ==> r == None
    ensures r.Some? ==> r.value.currency in KnownFiat && IsKnownFiat(r.value.currency)
    ensures r.Some? ==> 0.0 < r.value.amount && IsFinite(r.value.amount)
  {
    match FirstAsciiAlpha(s)
    case None => None
    case Some(i) =>
      if i == 0 then None
      else
        var code := Upper(s[i..]);
        if code !in KnownFiat then None
        else match ParseDecimal(s[..i])
          case None => None
          case Some(amount) =>
            if amount <= 0.0 || !IsFinite(amount) then None
            else
              UpperIdempotent(s[i..]);
              Some(FiatAmount(amount, code))
  }

  /**
   * For a token made of a letter-free number and a suffix starting with a
   * letter, parsing succeeds exactly when the suffix is a known code in any
   * case and the number is positive and finite, and then yields that number
   * and the upper-cased suffix.
   */
  lemma ParseFiatAmountSplit(num: string, code: string)
    requires num != [] && forall j :: 0 <= j < |num| ==> !IsAsciiAlpha(num[j])
    requires code != [] && IsAsciiAlpha(code[0])
    ensures ParseFiatAmount(num + code).Some? <==>
      IsKnownFiat(code) && ParseDecimal(num).Some?
      && 0.0 < ParseDecimal(num).value && IsFinite(ParseDecimal(num).value)
    ensures ParseFiatAmount(num + code).Some? ==>
      ParseFiatAmount(num + code).value == FiatAmount(ParseDecimal(num).value, Upper(code))
  {
    var s := num + code;
    var i := FirstAsciiAlpha(s);
    assert s[|num|] == code[0];
    assert forall j :: 0 <= j < |num| ==> s[j] == num[j];
    assert i == Some(|num|);
    assert s[..|num|] == num && s[|num|..] == code;
  }

  /** A positive integer rendered in decimal, followed by a known code in any case, parses back to both. */
  lemma ParseRenderedAmount(n: nat, code: string)
    requires 0 < n && n as real <= F64Max
    requires code != [] && (forall j :: 0 <= j < |code| ==> IsAsciiAlpha(code[j]))
    requires IsKnownFiat(code)
    ensures ParseFiatAmount(NatToDecimal(n) + code) == Some(FiatAmount(n as real, Upper(code)))
  {
    var num := NatToDecimal(n);
    assert forall j :: 0 <= j < |num| ==> !IsAsciiAlpha(num[j]) by {
      forall j | 0 <= j < |num| ensures !IsAsciiAlpha(num[j]) {
        assert IsAsciiDigit(num[j]);
      }
    }
    assert forall j :: 0 <= j < |num| ==> num[j] != '.' by {
      forall j | 0 <= j < |num| ensures num[j] != '.' {
        assert IsAsciiDigit(num[j]);
      }
    }
    assert FirstDot(num) == None;
    assert num[0] != '+' && num[0] != '-' by {
      assert IsAsciiDigit(num[0]);
    }
    assert ParseDecimal(num) == Some(n as real);
    ParseFiatAmountSplit(num, code);
  }

  /** Fiat recognition ignores ASCII case. */
  lemma IsKnownFiatIgnoresCase(a: string, b: string)
    requires EqIgnoreAsciiCase(a, b)
    ensures IsKnownFiat(a) <==> IsKnownFiat(b)
  {
    EqIgnoreCaseSameUpper(a, b);
  }

  /** Every entry of the table is three upper-case ASCII letters. */
  lemma KnownFiatCodes()
    ensures forall i :: 0 <= i < |KnownFiat| ==>
      |KnownFiat[i]| == 3 && forall j :: 0 <= j < 3 ==> IsAsciiUpper(KnownFiat[i][j])
  {
  }

  /** Every recognised code is three ASCII letters long, whatever its case. */
  lemma KnownFiatShape(s: string)
    requires IsKnownFiat(s)
    ensures |s| == 3 && forall j :: 0 <= j < 3 ==> IsAsciiAlpha(s[j])
  {
    KnownFiatCodes();
    var u := Upper(s);
    forall j | 0 <= j < 3 ensures IsAsciiAlpha(s[j]) {
      assert IsAsciiUpper(u[j]) && u[j] == UpperChar(s[j]);
    }
  }

  /** The arms of `fiat_name`'s `match`, in source order: a code and its display name. */
  const FiatNameTable: seq<(string, string)> := [
    ("USD", "US Dollar"),
    ("EUR", "Euro"),
    ("GBP", "British Pound"),
    ("JPY", "Japanese Yen"),
    ("CNY", "Chinese Yuan"),
    ("CAD", "Canadian Dollar"),
    ("AUD", "Australian Dollar"),
    ("CHF", "Swiss Franc"),
    ("KRW", "South Korean Won"),
    ("INR", "Indian Rupee"),
    ("BRL", "Brazilian Real"),
    ("RUB", "Russian Ruble"),
    ("TRY", "Turkish Lira"),
    ("ZAR", "South African Rand"),
    ("MXN", "Mexican Peso"),
    ("SGD", "Singapore Dollar"),
    ("HKD", "Hong Kong Dollar"),
    ("NOK", "Norwegian Krone"),
    ("SEK", "Swedish Krona"),
    ("DKK", "Danish Krone"),
    ("NZD", "New Zealand Dollar"),
    ("PLN", "Polish Zloty"),
    ("THB", "Thai Baht"),
    ("TWD", "New Taiwan Dollar"),
    ("CZK", "Czech Koruna"),
    ("HUF", "Hungarian Forint"),
    ("ILS", "Israeli Shekel"),
    ("PHP", "Philippine Peso"),
    ("MYR", "Malaysian Ringgit"),
    ("ARS", "Argentine Peso"),
    ("CLP", "Chilean Peso"),
    ("COP", "Colombian Peso"),
    ("IDR", "Indonesian Rupiah"),
    ("SAR", "Saudi Riyal"),
    ("AED", "UAE Dirham"),
    ("NGN", "Nigerian Naira"),
    ("VND", "Vietnamese Dong"),
    ("PKR", "Pakistani Rupee"),
    ("BDT", "Bangladeshi Taka"),
    ("EGP", "Egyptian Pound")
  ]

  /** The name of the first entry of `table` for `code`, if any. */
  function LookupName(table: seq<(string, string)>, code: string): (r: Option<string>)
    ensures r.Some? ==> exists i :: 0 <= i < |table| && table[i] == (code, r.value)
    ensures r.None? ==> forall i :: 0 <= i < |table| ==> table[i].0 != code
  {
    if table == [] then None
    else if table[0].0 == code then Some(table[0].1)
    else LookupName(table[1..], code)
  }

  /** `fiat_name`: the display name of a known code in any case, else the input unchanged. */
  function FiatName(code: string): string {
    LookupName(FiatNameTable, Upper(code)).UnwrapOr(code)
  }

  /**
   * The name table lists the known fiat codes in the same order, each with
   * a name longer than the code.
   */
  lemma FiatNameTableMatchesKnownFiat()
    ensures |FiatNameTable| == |KnownFiat|
    ensures forall i :: 0 <= i < |KnownFiat| ==> FiatNameTable[i].0 == KnownFiat[i]
    ensures forall i :: 0 <= i < |KnownFiat| ==> |FiatNameTable[i].1| > 3
  {
    FiatNameTableCodes();
    FiatNameTableNames();
  }

  /** The name table's codes are the known codes, in the same order. */
  lemma FiatNameTableCodes()
    ensures |FiatNameTable| == |KnownFiat|
    ensures forall i :: 0 <= i < |KnownFiat| ==> FiatNameTable[i].0 == KnownFiat[i]
  {
  }

  /** Every name in the table is longer than a code. */
  lemma FiatNameTableNames()
    ensures forall i :: 0 <= i < |FiatNameTable| ==> |FiatNameTable[i].1| > 3
  {
  }

  /**
   * A code gets a name of its own exactly when it is a known fiat code in
   * any case; any other input comes back unchanged.
   */
  lemma FiatNameSpec(code: string)
    ensures IsKnownFiat(code) <==> FiatName(code) != code
    ensures IsKnownFiat(code) ==>
      exists i :: 0 <= i < |KnownFiat| && KnownFiat[i] == Upper(code) && FiatName(code) == FiatNameTable[i].1
    ensures !IsKnownFiat(code) ==> FiatName(code) == code
  {
    FiatNameTableMatchesKnownFiat();
    var u := Upper(code);
    var r := LookupName(FiatNameTable, u);
    if IsKnownFiat(code) {
      KnownFiatShape(code);
      var k :| 0 <= k < |KnownFiat| && KnownFiat[k] == u;
      assert FiatNameTable[k].0 == u;
      var i :| 0 <= i < |FiatNameTable| && FiatNameTable[i] == (u, r.value);
      assert KnownFiat[i] == u;
    } else {
      assert r.None?;
    }
  }

  /** `3.5`, the number of the source's `3.5EUR` test, reads as three and a half. */
  lemma ParseDecimalExample()
    ensures ParseDecimal("3.5") == Some(3.5)
  {
    assert FirstDot("3.5") == Some(1);
    assert "3.5"[..1] == "3" && "3.5"[2..] == "5";
  }

  /** The tickers the source's tests use are not in the fiat table. */
  lemma TickersAreNotFiat()
    ensures forall i :: 0 <= i < |KnownFiat| ==>
      KnownFiat[i] != "BTC" && KnownFiat[i] != "ETH" && KnownFiat[i] != "XYZ" && KnownFiat[i] != ""
  {
  }

  /** `1inch` from the source's tests: a four-letter suffix is never a fiat code. */
  lemma ParseFourLetterExample()
    ensures ParseFiatAmount("1inch") == None
  {
    assert FirstAsciiAlpha("1inch") == Some(1) && "1inch"[1..] == "inch";
    assert |Upper("inch")| == 4;
    KnownFiatCodes();
  }

  /** `3btc` from the source's tests: a crypto ticker is not a fiat code. */
  lemma ParseCryptoExample()
    ensures ParseFiatAmount("3btc") == None
  {
    assert FirstAsciiAlpha("3btc") == Some(1) && "3btc"[1..] == "btc";
    assert Upper("btc") == "BTC";
    TickersAreNotFiat();
  }

  /** `-5USD` from the source's tests: a negative amount is refused. */
  lemma ParseNegativeExample()
    ensures ParseFiatAmount("-5USD") == None
  {
    var m := "-5USD";
    assert FirstAsciiAlpha(m) == Some(2);
    assert m[..2] == "-5" && m[2..] == "USD";
    assert "-5"[1..] == "5";
    assert UnsignedDecimal("5") == Some(5.0);
    assert Upper("USD") == "USD" && KnownFiat[0] == "USD";
  }

  /** `0USD` from the source's tests: a zero amount is refused. */
  lemma ParseZeroExample()
    ensures ParseFiatAmount("0USD") == None
  {
    var z := "0USD";
    assert FirstAsciiAlpha(z) == Some(1);
    assert z[..1] == "0" && z[1..] == "USD";
    assert UnsignedDecimal("0") == Some(0.0);
    assert Upper("USD") == "USD" && KnownFiat[0] == "USD";
  }

  /** `eur` and `Gbp` are recognised, `BTC`, `ETH` and the empty string are not. */
  lemma IsKnownFiatExamples()
    ensures IsKnownFiat("eur") && IsKnownFiat("Gbp")
    ensures !IsKnownFiat("BTC") && !IsKnownFiat("ETH") && !IsKnownFiat("")
  {
    assert Upper("eur") == "EUR" && KnownFiat[1] == "EUR";
    assert Upper("Gbp") == "GBP" && KnownFiat[2] == "GBP";
    assert Upper("BTC") == "BTC" && Upper("ETH") == "ETH";
    TickersAreNotFiat();
  }

  /** `eur` is named `Euro`; the unknown `XYZ` comes back unchanged. */
  lemma FiatNameExamples()
    ensures FiatName("eur") == "Euro"
    ensures FiatName("XYZ") == "XYZ"
  {
    assert Upper("eur") == "EUR";
    assert FiatNameTable[0].0 != "EUR" && FiatNameTable[1..][0] == ("EUR", "Euro");
    assert Upper("XYZ") == "XYZ";
    TickersAreNotFiat();
    FiatNameSpec("XYZ");
  }
}
