/** `getOrderBook` and `getTicker`: one public request each, after the pair is validated,
    and a field-by-field mapping of the response. Prices stay in main units; volumes
    become smallest subunits of the base currency. */
module KrakenMarket {
  import opened Wrappers
  import opened Json
  import opened ErrorHelper
  import CurrencyHelper
  import opened Kraken

  /** One `[price, volume, timestamp]` entry of a Depth response. */
  datatype DepthEntry = DepthEntry(price: real, volume: real, timestamp: real)

  /** The order book of one pair; an absent side is `None`. */
  datatype RawBook = RawBook(bids: Option<seq<DepthEntry>>, asks: Option<seq<DepthEntry>>)

  /** The `result` of a Depth request, keyed by pair name. */
  type DepthResult = map<string, RawBook>

  datatype BookEntry = BookEntry(price: real, baseAmount: int)

  datatype OrderBook = OrderBook(
    baseCurrency: string,
    quoteCurrency: string,
    bids: seq<BookEntry>,
    asks: seq<BookEntry>)

  function PairParams(pair: string): Fields {
    [("pair", JStr(pair))]
  }

  /** The key Kraken has been seen to answer under instead of XXBTZUSD. */
  const ALTERNATIVE_BTC_USD: string := "BTC/USD"

  /** `res['XXBTZUSD'] = res['BTC/USD']` when the latter is present. */
  function WithAlias(res: DepthResult): (r: DepthResult)
    ensures ALTERNATIVE_BTC_USD in res ==> "XXBTZUSD" in r && r["XXBTZUSD"] == res[ALTERNATIVE_BTC_USD]
    ensures forall k :: k != "XXBTZUSD" ==> (k in r <==> k in res)
    ensures forall k :: k in r && k != "XXBTZUSD" ==> r[k] == res[k]
    ensures ALTERNATIVE_BTC_USD !in res ==> r == res
  {
    if ALTERNATIVE_BTC_USD in res then res["XXBTZUSD" := res[ALTERNATIVE_BTC_USD]] else res
  }

  /** `rawEntries.map(convertRawEntry)`. */
  function ConvertRawEntries(entries: seq<DepthEntry>, baseCurrency: string): (r: seq<BookEntry>)
    ensures |r| == |entries|
    ensures forall i :: 0 <= i < |entries| ==>
              r[i].price == entries[i].price &&
              r[i].baseAmount == CurrencyHelper.ToSmallestSubunit(entries[i].volume, Some(baseCurrency))
  {
    if |entries| == 0 then []
    else
      [BookEntry(entries[0].price, CurrencyHelper.ToSmallestSubunit(entries[0].volume, Some(baseCurrency)))]
      + ConvertRawEntries(entries[1..], baseCurrency)
  }

  /** Converting a concatenation converts each part, so entries keep their order. */
  lemma {:induction false} ConvertRawEntriesAppend(a: seq<DepthEntry>, b: seq<DepthEntry>, baseCurrency: string)
    ensures ConvertRawEntries(a + b, baseCurrency) == ConvertRawEntries(a, baseCurrency) + ConvertRawEntries(b, baseCurrency)
  {
    if |a| > 0 {
      assert (a + b)[1..] == a[1..] + b;
      ConvertRawEntriesAppend(a[1..], b, baseCurrency);
    }
  }

  function MissingPairError(pair: string): Error {
    Create("Currency pair: " + pair + " is not in response", MODULE_ERROR, None)
  }

  /** `getOrderBook(base, quote)`, given the outcome of its Depth request. */
  function GetOrderBook(baseCurrency: Option<string>, quoteCurrency: Option<string>, reply: Result<DepthResult, Failure>)
    : (c: Call<OrderBook>)
    ensures var v := ValidateCurrenciesConstructPair(baseCurrency, quoteCurrency);
            v.Err? ==> c == Call([], Err(Raised(v.error)))
    ensures var v := ValidateCurrenciesConstructPair(baseCurrency, quoteCurrency);
            v.Ok? ==> c.sent == [Request("Depth", Some(PairParams(v.value.pair)))]
    ensures reply.Err? && c.sent != [] ==> c.result == Err(reply.error)
    ensures var v := ValidateCurrenciesConstructPair(baseCurrency, quoteCurrency);
            v.Ok? && reply.Ok? ==>
              (c.result.Ok? <==> v.value.pair in WithAlias(reply.value)) &&
              (c.result.Err? ==> c.result.error == Raised(MissingPairError(v.value.pair)))
    ensures c.result.Ok? ==>
              var v := ValidateCurrenciesConstructPair(baseCurrency, quoteCurrency).value;
              var book := WithAlias(reply.value)[v.pair];
              c.result.value.baseCurrency == v.baseCurrency && c.result.value.quoteCurrency == v.quoteCurrency &&
              c.result.value.bids == ConvertRawEntries(book.bids.GetOr([]), v.baseCurrency) &&
              c.result.value.asks == ConvertRawEntries(book.asks.GetOr([]), v.baseCurrency)
  {
    var v := ValidateCurrenciesConstructPair(baseCurrency, quoteCurrency);
    if v.Err? then Call([], Err(Raised(v.error)))
    else
      var currencies := v.value;
      var sent := [Request("Depth", Some(PairParams(currencies.pair)))];
      if reply.Err? then Call(sent, Err(reply.error))
      else
        var res := WithAlias(reply.value);
        if currencies.pair !in res then Call(sent, Err(Raised(MissingPairError(currencies.pair))))
        else
          var rawBids := res[currencies.pair].bids.GetOr([]);
          var rawAsks := res[currencies.pair].asks.GetOr([]);
          Call(sent, Ok(OrderBook(
            currencies.baseCurrency,
            currencies.quoteCurrency,
            ConvertRawEntries(rawBids, currencies.baseCurrency),
            ConvertRawEntries(rawAsks, currencies.baseCurrency))))
  }

  /** A BTC/USD book delivered under 'BTC/USD' is read as if it were under XXBTZUSD. */
  lemma AlternativeKeyIsRead(book: RawBook)
    ensures var c := GetOrderBook(Some("BTC"), Some("USD"), Ok(map[ALTERNATIVE_BTC_USD := book]));
            c.result.Ok? && |c.result.value.bids| == |book.bids.GetOr([])|
  {
    assert ToUpper("BTC") == "BTC";
    assert ToUpper("USD") == "USD";
    assert "X" + "XBT" + "Z" + "USD" == "XXBTZUSD";
  }

  lemma OrderBookFixtures()
    ensures ConvertRawEntries([DepthEntry(540.009, 3.044, 1470576289.0)], "BTC") == [BookEntry(540.009, 304400000)]
    ensures ConvertRawEntries([DepthEntry(541.19, 1.933, 1470576586.0)], "BTC") == [BookEntry(541.19, 193300000)]
  {
  }

  /** `[price, whole lot volume, lot volume]`, as in the ask and bid fields. */
  datatype Quote = Quote(price: real, wholeLotVolume: real, lotVolume: real)

  /** `[price, lot volume]` of the last closed trade. */
  datatype Closed = Closed(price: real, lotVolume: real)

  /** `[today, last 24 hours]`. */
  datatype Window = Window(today: real, last24Hours: real)

  datatype TickerInfo = TickerInfo(a: Quote, b: Quote, c: Closed, v: Window, p: Window, l: Window, h: Window)

  datatype Ticker = Ticker(
    baseCurrency: string,
    quoteCurrency: string,
    bid: real,
    ask: real,
    lastPrice: real,
    high24Hours: real,
    low24Hours: real,
    vwap24Hours: real,
    volume24Hours: int)

  /** `getTicker(base, quote)`, given the outcome of its Ticker request. The code does not
      check that the pair is in the response: reading a field of the missing entry throws. */
  function GetTicker(baseCurrency: Option<string>, quoteCurrency: Option<string>, reply: Result<map<string, TickerInfo>, Failure>)
    : (c: Call<Ticker>)
    ensures var v := ValidateCurrenciesConstructPair(baseCurrency, quoteCurrency);
            v.Err? ==> c == Call([], Err(Raised(v.error)))
    ensures var v := ValidateCurrenciesConstructPair(baseCurrency, quoteCurrency);
            v.Ok? ==> c.sent == [Request("Ticker", Some(PairParams(v.value.pair)))]
    ensures reply.Err? && c.sent != [] ==> c.result == Err(reply.error)
    ensures var v := ValidateCurrenciesConstructPair(baseCurrency, quoteCurrency);
            v.Ok? && reply.Ok? && v.value.pair !in reply.value ==> c.result.Err? && c.result.error.Thrown?
    ensures var v := ValidateCurrenciesConstructPair(baseCurrency, quoteCurrency);
            v.Ok? && reply.Ok? && v.value.pair in reply.value ==> c.result.Ok?
    ensures c.result.Ok? ==>
              var v := ValidateCurrenciesConstructPair(baseCurrency, quoteCurrency).value;
              var info := reply.value[v.pair];
              var t := c.result.value;
              t.baseCurrency == v.baseCurrency && t.quoteCurrency == v.quoteCurrency &&
              t.bid == info.b.price && t.ask == info.a.price && t.lastPrice == info.c.price &&
              t.high24Hours == info.h.last24Hours && t.low24Hours == info.l.last24Hours &&
              t.vwap24Hours == info.p.last24Hours &&
              t.volume24Hours == CurrencyHelper.ToSmallestSubunit(info.v.last24Hours, Some(v.baseCurrency))
  {
    var v := ValidateCurrenciesConstructPair(baseCurrency, quoteCurrency);
    if v.Err? then Call([], Err(Raised(v.error)))
    else
      var currencies := v.value;
      var sent := [Request("Ticker", Some(PairParams(currencies.pair)))];
      if reply.Err? then Call(sent, Err(reply.error))
      else if currencies.pair !in reply.value then Call(sent, Err(Thrown("Cannot read property 'b' of undefined")))
      else
        var result := reply.value[currencies.pair];
        Call(sent, Ok(Ticker(
          currencies.baseCurrency,
          currencies.quoteCurrency,
          result.b.price,
          result.a.price,
          result.c.price,
          result.h.last24Hours,
          result.l.last24Hours,
          result.p.last24Hours,
          CurrencyHelper.ToSmallestSubunit(result.v.last24Hours, Some(currencies.baseCurrency)))))
  }

  /** The 24-hour BTC volume 4173.76106173 is reported as 417376106173 satoshi. */
  lemma TickerVolumeFixture()
    ensures CurrencyHelper.ToSmallestSubunit(4173.76106173, Some("BTC")) == 417376106173
  {
  }
}
