/** The Kraken client object and the pieces every endpoint shares: the record of the
    requests an operation sends, JavaScript's string slicing and upper-casing, and the
    validation of a base/quote currency pair. */
module Kraken {
  import opened Wrappers
  import opened Json
  import opened ErrorHelper
  import Constants
  import RequestHelper
  import ApiResponseConverter

  /** One `Request.post(client, action, params)` call. */
  datatype Request = Request(action: string, params: Option<Fields>)

  /** What an operation did: the requests it sent, in order, and what it called back with. */
  datatype Call<T> = Call(sent: seq<Request>, result: Result<T, Failure>)

  /** `str.slice(from, to)`: indices are clamped to the string. */
  function Slice(s: string, from: nat, to: nat): (r: string)
    ensures to <= |s| && from <= to ==> r == s[from..to]
    ensures |r| <= |s|
  {
    var hi := if to <= |s| then to else |s|;
    var lo := if from <= hi then from else hi;
    s[lo..hi]
  }

  /** `str.slice(from)`. */
  function SliceFrom(s: string, from: nat): (r: string)
    ensures from <= |s| ==> r == s[from..]
    ensures from >= |s| ==> r == ""
  {
    if from <= |s| then s[from..] else ""
  }

  function UpperChar(c: char): (u: char)
    ensures 'a' <= c <= 'z' ==> 'A' <= u <= 'Z'
    ensures !('a' <= c <= 'z') ==> u == c
  {
    if 'a' <= c <= 'z' then (c as int - 'a' as int + 'A' as int) as char else c
  }

  /** `toUpperCase` on the ASCII letters. */
  function ToUpper(s: string): (r: string)
    ensures |r| == |s|
    ensures forall i :: 0 <= i < |s| ==> r[i] == UpperChar(s[i])
  {
    if |s| == 0 then [] else [UpperChar(s[0])] + ToUpper(s[1..])
  }

  /** Upper-casing only changes lower-case letters, so a string in capitals is kept. */
  lemma {:induction false} ToUpperOfUpper(s: string)
    requires forall i :: 0 <= i < |s| ==> !('a' <= s[i] <= 'z')
    ensures ToUpper(s) == s
  {
    if |s| > 0 {
      ToUpperOfUpper(s[1..]);
    }
  }

  datatype Currencies = Currencies(
    baseCurrency: string,
    quoteCurrency: string,
    baseCurrencyKraken: string,
    pair: string)

  const MSG_MISSING_CURRENCY: string := "Missing base currency or quote currency"
  const MSG_UNSUPPORTED_PAIR: string :=
    "Kraken only supports BTC or BSV as base currency and USD or EUR as quote currency."

  predicate SupportedBase(code: string) { code == "BTC" || code == "BSV" }
  predicate SupportedQuote(code: string) { code == "USD" || code == "EUR" }

  /** `validateCurrenciesConstructPair`. */
  function ValidateCurrenciesConstructPair(baseCurrency: Option<string>, quoteCurrency: Option<string>)
    : (r: Result<Currencies, Error>)
    ensures !TruthyString(baseCurrency) || !TruthyString(quoteCurrency) ==>
              r == Err(Error(MSG_MISSING_CURRENCY, MODULE_ERROR, None, None, None))
    ensures r.Ok? <==>
              TruthyString(baseCurrency) && TruthyString(quoteCurrency) &&
              SupportedBase(ToUpper(baseCurrency.value)) && SupportedQuote(ToUpper(quoteCurrency.value))
    ensures r.Err? ==> r.error.code == MODULE_ERROR && r.error.cause.None?
    ensures r.Err? && r.error.message == MSG_UNSUPPORTED_PAIR <==>
              TruthyString(baseCurrency) && TruthyString(quoteCurrency) && r.Err?
    ensures r.Ok? ==>
              r.value.baseCurrency == ToUpper(baseCurrency.value) &&
              r.value.quoteCurrency == ToUpper(quoteCurrency.value) &&
              SupportedBase(r.value.baseCurrency) && SupportedQuote(r.value.quoteCurrency)
  {
    if !TruthyString(baseCurrency) || !TruthyString(quoteCurrency) then
      Err(Create(MSG_MISSING_CURRENCY, MODULE_ERROR, None))
    else
      var base := ToUpper(baseCurrency.value);
      var quote := ToUpper(quoteCurrency.value);
      if !SupportedBase(base) || !SupportedQuote(quote) then
        Err(Create(MSG_UNSUPPORTED_PAIR, MODULE_ERROR, None))
      else
        var baseKraken := if base == "BTC" then "XBT" else base;
        var pair := if base == "BTC" then "X" + baseKraken + "Z" + quote else baseKraken + quote;
        Ok(Currencies(base, quote, baseKraken, pair))
  }

  /** The Kraken names of the four supported pairs. */
  lemma PairNames(base: string, quote: string)
    requires TruthyString(Some(base)) && TruthyString(Some(quote))
    requires SupportedBase(ToUpper(base)) && SupportedQuote(ToUpper(quote))
    ensures var c := ValidateCurrenciesConstructPair(Some(base), Some(quote)).value;
            (c.baseCurrency == "BTC" ==> c.baseCurrencyKraken == "XBT" && c.pair == "XXBTZ" + c.quoteCurrency) &&
            (c.baseCurrency == "BSV" ==> c.baseCurrencyKraken == "BSV" && c.pair == "BSV" + c.quoteCurrency)
  {
  }

  /** Distinct accepted currency pairs get distinct Kraken pair names, so the order book or
      ticker looked up is the one asked for. */
  lemma PairIsInjective(b1: string, q1: string, b2: string, q2: string)
    requires ValidateCurrenciesConstructPair(Some(b1), Some(q1)).Ok?
    requires ValidateCurrenciesConstructPair(Some(b2), Some(q2)).Ok?
    ensures var c1 := ValidateCurrenciesConstructPair(Some(b1), Some(q1)).value;
            var c2 := ValidateCurrenciesConstructPair(Some(b2), Some(q2)).value;
            c1.pair == c2.pair ==> c1.baseCurrency == c2.baseCurrency && c1.quoteCurrency == c2.quoteCurrency
  {
    var c1 := ValidateCurrenciesConstructPair(Some(b1), Some(q1)).value;
    var c2 := ValidateCurrenciesConstructPair(Some(b2), Some(q2)).value;
    if c1.pair == c2.pair {
      assert c1.pair[0] == c2.pair[0];
      if c1.baseCurrency == "BTC" {
        assert c2.baseCurrency == "BTC";
        assert c1.pair[5..] == c2.pair[5..];
      } else {
        assert c2.baseCurrency == "BSV";
        assert c1.pair[3..] == c2.pair[3..];
      }
    }
  }

  /** Upper-casing the codes used in the examples below. */
  lemma UpperExamples()
    ensures ToUpper("btc") == "BTC" && ToUpper("eUR") == "EUR"
    ensures ToUpper("BSV") == "BSV" && ToUpper("USD") == "USD" && ToUpper("ETH") == "ETH"
  {
    assert ToUpper("btc") == "BTC";
    assert ToUpper("eUR") == "EUR";
    ToUpperOfUpper("BSV");
    ToUpperOfUpper("USD");
    ToUpperOfUpper("ETH");
  }

  /** The validation is case-insensitive: 'btc'/'eUR' is read as BTC/EUR. */
  lemma PairExamples()
    ensures ValidateCurrenciesConstructPair(Some("btc"), Some("eUR")) ==
            Ok(Currencies("BTC", "EUR", "XBT", "XXBTZEUR"))
    ensures ValidateCurrenciesConstructPair(Some("BSV"), Some("USD")) ==
            Ok(Currencies("BSV", "USD", "BSV", "BSVUSD"))
  {
    UpperExamples();
    assert "X" + "XBT" + "Z" + "EUR" == "XXBTZEUR";
    assert "BSV" + "USD" == "BSVUSD";
  }

  /** An unsupported base and a missing base are both rejected, with different messages. */
  lemma RejectedPairExamples()
    ensures ValidateCurrenciesConstructPair(Some("ETH"), Some("EUR")).Err?
    ensures ValidateCurrenciesConstructPair(Some("ETH"), Some("EUR")).error.message == MSG_UNSUPPORTED_PAIR
    ensures ValidateCurrenciesConstructPair(None, Some("EUR")).error.message == MSG_MISSING_CURRENCY
  {
    UpperExamples();
  }

  /** The client's settings; `None` is an absent setting. */
  datatype Settings = Settings(
    key: Option<string>,
    secret: Option<string>,
    otp: Option<string>,
    host: Option<string>,
    timeout: Option<nat>,
    supportedCurrencies: Option<seq<string>>)

  /** `supportedCurrencies.map(convertToKrakenCurrencyCode)`. */
  function KrakenCodes(codes: seq<string>): (r: seq<Option<string>>)
    ensures |r| == |codes|
    ensures forall i :: 0 <= i < |codes| ==> r[i] == ApiResponseConverter.ConvertToKrakenCurrencyCode(codes[i])
  {
    if |codes| == 0 then []
    else [ApiResponseConverter.ConvertToKrakenCurrencyCode(codes[0])] + KrakenCodes(codes[1..])
  }

  lemma DefaultKrakenCodes()
    ensures KrakenCodes(Constants.DEFAULT_SUPPORTED_CURRENCIES) ==
            [Some("XETH"), Some("XXBT"), Some("BSV"), Some("ZEUR"), Some("ZUSD")]
  {
  }

  /** The `Kraken` client: its settings, with the defaults filled in. */
  class Kraken {
    const key: Option<string>
    const secret: Option<string>
    const otp: Option<string>
    const host: string
    const timeout: nat
    const supportedCurrencies: seq<Option<string>>

    /** `new Kraken(settings)`: an empty host and a zero timeout are falsy and fall back to
        the defaults; an absent currency list falls back to the default list, and
        every code is stored in Kraken's naming. */
    constructor(settings: Settings)
      ensures key == settings.key && secret == settings.secret && otp == settings.otp
      ensures host == (if TruthyString(settings.host) then settings.host.value else Constants.HOST)
      ensures timeout == (if settings.timeout.Some? && settings.timeout.value != 0
                          then settings.timeout.value else Constants.REQUEST_TIMEOUT)
      ensures supportedCurrencies == KrakenCodes(settings.supportedCurrencies.GetOr(Constants.DEFAULT_SUPPORTED_CURRENCIES))
    {
      key := settings.key;
      secret := settings.secret;
      otp := settings.otp;
      host := if TruthyString(settings.host) then settings.host.value else Constants.HOST;
      timeout := if settings.timeout.Some? && settings.timeout.value != 0
                 then settings.timeout.value else Constants.REQUEST_TIMEOUT;
      var codes := settings.supportedCurrencies.GetOr(Constants.DEFAULT_SUPPORTED_CURRENCIES);
      supportedCurrencies := KrakenCodes(codes);
    }
  }
}
