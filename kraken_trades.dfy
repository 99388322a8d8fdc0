/** `getTrade`, `getTransactionIdFromTrade`, `constructTradeObject` and `placeTrade`. */
module KrakenTrades {
  import opened Wrappers
  import opened Json
  import opened ErrorHelper
  import Constants
  import CurrencyHelper
  import opened Kraken

  /** An entry of a QueryTrades result. */
  datatype TradeRecord = TradeRecord(
    pair: string,
    tradeType: string,
    ordertype: string,
    cost: real,
    fee: real,
    vol: real)

  datatype OrderDescription = OrderDescription(pair: string, orderType: string, ordertype: string)

  /** An entry of a QueryOrders result. */
  datatype OrderRecord = OrderRecord(
    status: string,
    descr: OrderDescription,
    cost: real,
    fee: real,
    vol: real)

  /** A QueryTrades or a QueryOrders result, keyed by transaction id. */
  datatype QueryResult = TradesResult(trades: map<string, TradeRecord>) | OrdersResult(orders: map<string, OrderRecord>)

  predicate HasEntry(responseData: QueryResult, tradeId: string) {
    match responseData
    case TradesResult(trades) => tradeId in trades
    case OrdersResult(orders) => tradeId in orders
  }

  datatype Trade = Trade(
    externalId: string,
    orderType: string,
    state: string,
    baseAmount: int,
    quoteAmount: Option<int>,
    baseCurrency: string,
    quoteCurrency: string,
    feeAmount: Option<int>,
    feeCurrency: string,
    raw: QueryResult)

  /** The currencies of a pair name: a trade pair reads as `X<base>Z<quote>`, an order
      pair as `<base><quote>`; the name XBT becomes BTC. */
  function PairCurrencies(pair: string, isTrade: bool): (r: (string, string))
    ensures isTrade && |pair| >= 5 && pair[1..4] != "XBT" ==> r == (pair[1..4], pair[5..])
    ensures !isTrade && |pair| >= 3 && pair[..3] != "XBT" ==> r == (pair[..3], pair[3..])
    ensures isTrade && |pair| >= 5 && pair[1..4] == "XBT" ==> r == ("BTC", pair[5..])
    ensures !isTrade && |pair| >= 3 && pair[..3] == "XBT" ==> r == ("BTC", pair[3..])
  {
    var base := if isTrade then Slice(pair, 1, 4) else Slice(pair, 0, 3);
    var quote := if isTrade then SliceFrom(pair, 5) else SliceFrom(pair, 3);
    (if base == "XBT" then "BTC" else base, quote)
  }

  /** An order's status, with Kraken's 'canceled' spelled 'cancelled'. */
  function NormalizeState(status: string): (s: string)
    ensures status == "canceled" ==> s == "cancelled"
    ensures status != "canceled" ==> s == status
  {
    if status == "canceled" then "cancelled" else status
  }

  /** `-x` when the condition holds. */
  function NegatedIf(negate: bool, x: int): int {
    if negate then -x else x
  }

  /** `constructTradeObject(responseData, entityType, tradeId)`; reading the entry of a
      missing id throws. */
  function ConstructTradeObject(responseData: QueryResult, tradeId: string): (r: Result<Trade, Failure>)
    ensures r.Err? <==> !HasEntry(responseData, tradeId)
    ensures r.Err? ==> r.error.Thrown?
    ensures r.Ok? ==> r.value.externalId == tradeId && r.value.raw == responseData
    ensures r.Ok? ==> r.value.feeCurrency == r.value.quoteCurrency
    ensures r.Ok? ==> (r.value.quoteAmount.None? <==> r.value.state == "open")
    ensures r.Ok? ==> (r.value.feeAmount.None? <==> r.value.state == "open")
    ensures r.Ok? && responseData.TradesResult? ==>
              var t := responseData.trades[tradeId];
              r.value.state == "closed" && r.value.orderType == t.ordertype &&
              (r.value.baseCurrency, r.value.quoteCurrency) == PairCurrencies(t.pair, true) &&
              r.value.baseAmount == NegatedIf(t.tradeType == Constants.TYPE_SELL_ORDER,
                                              CurrencyHelper.ToSmallestSubunit(t.vol, Some(r.value.baseCurrency))) &&
              r.value.quoteAmount == Some(NegatedIf(t.tradeType == Constants.TYPE_BUY_ORDER,
                                                    CurrencyHelper.ToSmallestSubunit(t.cost, Some(r.value.quoteCurrency)))) &&
              r.value.feeAmount == Some(CurrencyHelper.ToSmallestSubunit(t.fee, Some(r.value.quoteCurrency)))
    ensures r.Ok? && responseData.OrdersResult? ==>
              var o := responseData.orders[tradeId];
              r.value.state == NormalizeState(o.status) && r.value.orderType == o.descr.ordertype &&
              (r.value.baseCurrency, r.value.quoteCurrency) == PairCurrencies(o.descr.pair, false) &&
              r.value.baseAmount == NegatedIf(o.descr.orderType == Constants.TYPE_SELL_ORDER,
                                              CurrencyHelper.ToSmallestSubunit(o.vol, Some(r.value.baseCurrency))) &&
              (r.value.state != "open" ==>
                 r.value.quoteAmount == Some(NegatedIf(o.descr.orderType == Constants.TYPE_BUY_ORDER,
                                                       CurrencyHelper.ToSmallestSubunit(o.cost, Some(r.value.quoteCurrency)))) &&
                 r.value.feeAmount == Some(CurrencyHelper.ToSmallestSubunit(o.fee, Some(r.value.quoteCurrency))))
  {
    if !HasEntry(responseData, tradeId) then
      Err(Thrown("Cannot read property of undefined"))
    else
      var isTrade := responseData.TradesResult?;
      var pair := if isTrade then responseData.trades[tradeId].pair else responseData.orders[tradeId].descr.pair;
      var side := if isTrade then responseData.trades[tradeId].tradeType else responseData.orders[tradeId].descr.orderType;
      var ordertype := if isTrade then responseData.trades[tradeId].ordertype else responseData.orders[tradeId].descr.ordertype;
      var vol := if isTrade then responseData.trades[tradeId].vol else responseData.orders[tradeId].vol;
      var cost := if isTrade then responseData.trades[tradeId].cost else responseData.orders[tradeId].cost;
      var fee := if isTrade then responseData.trades[tradeId].fee else responseData.orders[tradeId].fee;
      var (baseCurrency, quoteCurrency) := PairCurrencies(pair, isTrade);
      var baseAmount := CurrencyHelper.ToSmallestSubunit(vol, Some(baseCurrency));
      var state := if isTrade then "closed" else NormalizeState(responseData.orders[tradeId].status);
      var quoteAmount :=
        if state != "open" then
          Some(NegatedIf(side == Constants.TYPE_BUY_ORDER, CurrencyHelper.ToSmallestSubunit(cost, Some(quoteCurrency))))
        else None;
      var feeAmount :=
        if state != "open" then Some(CurrencyHelper.ToSmallestSubunit(fee, Some(quoteCurrency))) else None;
      Ok(Trade(
        tradeId,
        ordertype,
        state,
        NegatedIf(side == Constants.TYPE_SELL_ORDER, baseAmount),
        quoteAmount,
        baseCurrency,
        quoteCurrency,
        feeAmount,
        quoteCurrency,
        responseData))
  }

  /** The sign convention: with a non-negative volume and cost, a sell gives away base and
      receives quote, a buy the reverse; the fee is never negative. */
  lemma TradeSigns(responseData: QueryResult, tradeId: string)
    requires ConstructTradeObject(responseData, tradeId).Ok?
    requires responseData.TradesResult?
    requires var t := responseData.trades[tradeId];
             t.vol >= 0.0 && t.cost >= 0.0 && t.fee >= 0.0 && (t.tradeType == "sell" || t.tradeType == "buy")
    ensures var r := ConstructTradeObject(responseData, tradeId).value;
            var sell := responseData.trades[tradeId].tradeType == "sell";
            (sell ==> r.baseAmount <= 0 && r.quoteAmount.value >= 0) &&
            (!sell ==> r.baseAmount >= 0 && r.quoteAmount.value <= 0) &&
            r.feeAmount.value >= 0
  {
    var t := responseData.trades[tradeId];
    var r := ConstructTradeObject(responseData, tradeId).value;
    NonNegativeSubunits(t.vol, Some(r.baseCurrency));
    NonNegativeSubunits(t.cost, Some(r.quoteCurrency));
    NonNegativeSubunits(t.fee, Some(r.quoteCurrency));
  }

  lemma NonNegativeSubunits(amount: real, currency: Option<string>)
    requires amount >= 0.0
    ensures CurrencyHelper.ToSmallestSubunit(amount, currency) >= 0
  {
    CurrencyHelper.ToSmallestSubunitKeepsSign(amount, currency);
  }

  /** Kraken's trade pair for a validated BTC pair decodes back to that pair, and so does the
      order pair `XBT<quote>`. */
  lemma BtcPairsDecode(quote: string)
    requires SupportedQuote(quote)
    ensures PairCurrencies("XXBTZ" + quote, true) == ("BTC", quote)
    ensures PairCurrencies("XBT" + quote, false) == ("BTC", quote)
    ensures PairCurrencies("BSV" + quote, false) == ("BSV", quote)
  {
    assert ("XXBTZ" + quote)[1..4] == "XBT" && ("XXBTZ" + quote)[5..] == quote;
    assert ("XBT" + quote)[..3] == "XBT" && ("XBT" + quote)[3..] == quote;
    assert ("BSV" + quote)[..3] == "BSV" && ("BSV" + quote)[3..] == quote;
  }

  /** A trade pair without the X/Z prefixes, such as BSVEUR, is sliced as if it had them. */
  lemma BsvTradePairIsMisread()
    ensures PairCurrencies("BSVEUR", true) == ("SVE", "R")
  {
    assert "BSVEUR"[1..4] == "SVE";
  }

  /** A trade is always closed; an order keeps its status apart from the spelling of
      'canceled'. */
  lemma StateExamples()
    ensures NormalizeState("canceled") == "cancelled"
    ensures NormalizeState("open") == "open" && NormalizeState("closed") == "closed"
  {
  }

  /** The sell trade of 0.01 BTC for 507 EUR with a fee of 0.01318 EUR. */
  lemma TradeFixture(responseData: QueryResult)
    requires responseData == TradesResult(map["TEBCPN-YCQ7U-PQSUJF" :=
               TradeRecord("XXBTZEUR", "sell", "limit", 507.0, 0.01318, 0.01)])
    ensures ConstructTradeObject(responseData, "TEBCPN-YCQ7U-PQSUJF") == Ok(Trade(
              "TEBCPN-YCQ7U-PQSUJF", "limit", "closed", -1000000, Some(50700), "BTC", "EUR",
              Some(1), "EUR", responseData))
  {
    BtcPairsDecode("EUR");
    TradeFixtureAmounts();
    var t := responseData.trades["TEBCPN-YCQ7U-PQSUJF"];
    assert t.pair == "XXBTZEUR" && t.tradeType == "sell";
  }

  lemma TradeFixtureAmounts()
    ensures CurrencyHelper.ToSmallestSubunit(0.01, Some("BTC")) == 1000000
    ensures CurrencyHelper.ToSmallestSubunit(507.0, Some("EUR")) == 50700
    ensures CurrencyHelper.ToSmallestSubunit(0.01318, Some("EUR")) == 1
    ensures CurrencyHelper.ToSmallestSubunit(4.0, Some("BTC")) == 400000000
  {
  }

  /** The open sell order of 4 BTC: no quote or fee amount yet. */
  lemma OpenOrderFixture(responseData: QueryResult)
    requires responseData == OrdersResult(map["OEX7R7-ID6ZP-KATRCD" :=
               OrderRecord("open", OrderDescription("XBTEUR", "sell", "limit"), 1.0, 0.0, 4.0)])
    ensures ConstructTradeObject(responseData, "OEX7R7-ID6ZP-KATRCD") == Ok(Trade(
              "OEX7R7-ID6ZP-KATRCD", "limit", "open", -400000000, None, "BTC", "EUR",
              None, "EUR", responseData))
  {
    BtcPairsDecode("EUR");
    TradeFixtureAmounts();
    var o := responseData.orders["OEX7R7-ID6ZP-KATRCD"];
    assert o.descr.pair == "XBTEUR" && o.descr.orderType == "sell" && NormalizeState(o.status) == "open";
  }

  /** `raw.txid[0]`, for the JSON values `txid` can hold; indexing null throws. */
  function FirstOf(v: Json): (r: Result<Option<Json>, Failure>)
    ensures v.JArr? ==> r == Ok(if |v.items| > 0 then Some(v.items[0]) else None)
    ensures r.Err? <==> v.JNull?
  {
    match v
    case JArr(items) => Ok(if |items| > 0 then Some(items[0]) else None)
    case JStr(s) => Ok(if |s| > 0 then Some(JStr([s[0]])) else None)
    case JObj(fields) => Ok(Get(fields, "0"))
    case JNull => Err(Thrown("Cannot read property '0' of null"))
    case _ => Ok(None)
  }

  /** `getTransactionIdFromTrade`: the first `txid` when the raw object has one, otherwise
      its first property name. */
  function GetTransactionIdFromTrade(raw: Fields): (r: Result<Option<Json>, Failure>)
    ensures HasOwn(raw, "txid") ==> r == FirstOf(Get(raw, "txid").value)
    ensures !HasOwn(raw, "txid") ==> r == Ok(if |raw| == 0 then None else Some(JStr(raw[0].0)))
  {
    if HasOwn(raw, "txid") then FirstOf(Get(raw, "txid").value)
    else if |raw| == 0 then Ok(None)
    else Ok(Some(JStr(raw[0].0)))
  }

  lemma TransactionIdExamples()
    ensures GetTransactionIdFromTrade([("txid", JArr([JStr("TEBCPN-YCQ7U-PQSUJF")])), ("orderType", JStr("sell"))])
            == Ok(Some(JStr("TEBCPN-YCQ7U-PQSUJF")))
    ensures GetTransactionIdFromTrade([("OEX7R7-ID6ZP-KATRCD", JObj([]))]) == Ok(Some(JStr("OEX7R7-ID6ZP-KATRCD")))
  {
    var raw: Fields := [("txid", JArr([JStr("TEBCPN-YCQ7U-PQSUJF")])), ("orderType", JStr("sell"))];
    assert raw[0].0 == "txid";
    assert HasOwn(raw, "txid");
  }

  /** The trade handle passed to `getTrade`. */
  datatype TradeHandle = TradeHandle(raw: Option<Fields>)

  const MSG_TRADE_REQUIRED: string := "Trade object is a required parameter."
  const MSG_RAW_REQUIRED: string := "'trade.raw' is a required property."
  const INVALID_ORDER: string := "EOrder:Invalid order"

  /** The form of a QueryTrades or QueryOrders request; an undefined id is sent empty. */
  function TxidParams(txid: Option<Json>): Fields {
    [("txid", txid.GetOr(JNull))]
  }

  /** Whether a QueryTrades failure says the id is not a closed trade. */
  predicate IsInvalidOrder(f: Failure) {
    f.Raised? && f.error.errorMessages.Some? && INVALID_ORDER in f.error.errorMessages.value
  }

  function Construct(responseData: QueryResult, txid: Option<Json>): Result<Trade, Failure> {
    if txid.Some? && txid.value.JStr? then ConstructTradeObject(responseData, txid.value.s)
    else Err(Thrown("Cannot read property of undefined"))
  }

  /** `getTrade(trade)`: QueryTrades first; when Kraken answers that the id is not a
      closed trade, QueryOrders with the same id. */
  function GetTrade(
    handle: Option<TradeHandle>,
    tradesReply: Result<map<string, TradeRecord>, Failure>,
    ordersReply: Result<map<string, OrderRecord>, Failure>): (c: Call<Trade>)
    ensures handle.None? ==> c == Call([], Err(Raised(Error(MSG_TRADE_REQUIRED, MODULE_ERROR, None, None, None))))
    ensures handle.Some? && handle.value.raw.None? ==>
              c == Call([], Err(Raised(Error(MSG_RAW_REQUIRED, MODULE_ERROR, None, None, None))))
    ensures handle.Some? && handle.value.raw.Some? ==>
              var txid := GetTransactionIdFromTrade(handle.value.raw.value);
              (txid.Err? ==> c == Call([], Err(txid.error))) &&
              (txid.Ok? ==>
                var trades := Request("QueryTrades", Some(TxidParams(txid.value)));
                var orders := Request("QueryOrders", Some(TxidParams(txid.value)));
                (tradesReply.Ok? ==>
                   c == Call([trades], Construct(TradesResult(tradesReply.value), txid.value))) &&
                (tradesReply.Err? && !IsInvalidOrder(tradesReply.error) ==>
                   c == Call([trades], Err(tradesReply.error))) &&
                (tradesReply.Err? && IsInvalidOrder(tradesReply.error) ==>
                   c.sent == [trades, orders] &&
                   c.result == (if ordersReply.Err? then Err(ordersReply.error)
                                else Construct(OrdersResult(ordersReply.value), txid.value))))
  {
    if handle.None? then Call([], Err(Raised(Create(MSG_TRADE_REQUIRED, MODULE_ERROR, None))))
    else if handle.value.raw.None? then Call([], Err(Raised(Create(MSG_RAW_REQUIRED, MODULE_ERROR, None))))
    else
      var txid := GetTransactionIdFromTrade(handle.value.raw.value);
      if txid.Err? then Call([], Err(txid.error))
      else
        var trades := Request("QueryTrades", Some(TxidParams(txid.value)));
        if tradesReply.Err? && IsInvalidOrder(tradesReply.error) then
          var sent := [trades, Request("QueryOrders", Some(TxidParams(txid.value)))];
          if ordersReply.Err? then Call(sent, Err(ordersReply.error))
          else Call(sent, Construct(OrdersResult(ordersReply.value), txid.value))
        else if tradesReply.Err? then Call([trades], Err(tradesReply.error))
        else Call([trades], Construct(TradesResult(tradesReply.value), txid.value))
  }

  /** At most two requests, and the second only after the invalid-order answer. */
  lemma GetTradeFallsBackOnlyOnInvalidOrder(
    handle: Option<TradeHandle>,
    tradesReply: Result<map<string, TradeRecord>, Failure>,
    ordersReply: Result<map<string, OrderRecord>, Failure>)
    ensures var c := GetTrade(handle, tradesReply, ordersReply);
            |c.sent| <= 2 &&
            (c.sent != [] ==> c.sent[0].action == "QueryTrades") &&
            (|c.sent| == 2 <==> c.sent != [] && tradesReply.Err? && IsInvalidOrder(tradesReply.error)) &&
            (|c.sent| == 2 ==> c.sent[1].action == "QueryOrders" && c.sent[1].params == c.sent[0].params)
  {
  }

  /** An argument that JavaScript may pass as a number. */
  datatype NumArg = Undefined | NotANumber | Num(n: real)

  const MSG_BAD_AMOUNT: string := "The base amount must be a number and larger or smaller than 0."
  const MSG_BAD_PRICE: string := "The limit price must be a positive number."

  /** `Math.round(10 * p) / 10`: the nearest tenth, halves going up. */
  function RoundToTenth(p: real): (r: real)
    ensures p - 0.05 < r <= p + 0.05
    ensures (r * 10.0).Floor as real == r * 10.0
  {
    CurrencyHelper.JsMathRound(10.0 * p) as real / 10.0
  }

  lemma RoundToTenthExamples()
    ensures RoundToTenth(10000.57) == 10000.6
    ensures RoundToTenth(100.0) == 100.0
    ensures RoundToTenth(0.05) == 0.1
  {
  }

  datatype PlacedTrade = PlacedTrade(
    externalId: Option<Json>,
    orderType: string,
    state: string,
    baseAmount: real,
    baseCurrency: string,
    quoteCurrency: string,
    limitPrice: real,
    raw: Fields)

  function AddOrderParams(pair: string, orderType: string, price: real, volume: real): Fields {
    [("pair", JStr(pair)), ("type", JStr(orderType)), ("ordertype", JStr("limit")),
     ("price", JNum(price)), ("volume", JNum(volume))]
  }

  /** `placeTrade(baseAmount, limitPrice, base, quote)`, given the outcome of its AddOrder
      request. */
  method PlaceTrade(baseAmount: NumArg, limitPrice: NumArg, baseCurrency: Option<string>, quoteCurrency: Option<string>,
                    reply: Result<Fields, Failure>)
    returns (c: Call<PlacedTrade>)
    ensures var v := ValidateCurrenciesConstructPair(baseCurrency, quoteCurrency);
            v.Err? ==> c == Call([], Err(Raised(v.error)))
    ensures ValidateCurrenciesConstructPair(baseCurrency, quoteCurrency).Ok? ==>
              ((!baseAmount.Num? || baseAmount.n == 0.0) <==>
                 c == Call([], Err(Raised(Error(MSG_BAD_AMOUNT, MODULE_ERROR, None, None, None)))))
    ensures ValidateCurrenciesConstructPair(baseCurrency, quoteCurrency).Ok? && baseAmount.Num? && baseAmount.n != 0.0 ==>
              ((!limitPrice.Num? || limitPrice.n < 0.0) <==>
                 c == Call([], Err(Raised(Error(MSG_BAD_PRICE, MODULE_ERROR, None, None, None)))))
    ensures var v := ValidateCurrenciesConstructPair(baseCurrency, quoteCurrency);
            v.Ok? && baseAmount.Num? && baseAmount.n != 0.0 && limitPrice.Num? && limitPrice.n >= 0.0 ==>
              c.sent != []
    ensures c.sent != [] ==>
              var v := ValidateCurrenciesConstructPair(baseCurrency, quoteCurrency).value;
              baseAmount.Num? && baseAmount.n != 0.0 && limitPrice.Num? && limitPrice.n >= 0.0 &&
              var sell := baseAmount.n < 0.0;
              var volume := CurrencyHelper.FromSmallestSubunit(CurrencyHelper.Abs(baseAmount.n), Some(v.baseCurrency));
              c.sent == [Request("AddOrder", Some(AddOrderParams(
                           v.pair, if sell then Constants.TYPE_SELL_ORDER else Constants.TYPE_BUY_ORDER,
                           RoundToTenth(limitPrice.n), volume)))] &&
              (reply.Err? ==> c.result == Err(reply.error)) &&
              (reply.Ok? && c.result.Ok? ==>
                 c.result.value == PlacedTrade(c.result.value.externalId, "limit", "open", baseAmount.n,
                                               v.baseCurrency, v.quoteCurrency, RoundToTenth(limitPrice.n), reply.value))
    ensures reply.Ok? && c.sent != [] ==>
              (HasOwn(reply.value, "txid") ==> var id := FirstOf(Get(reply.value, "txid").value);
                 (id.Ok? ==> c.result.Ok? && c.result.value.externalId == id.value) &&
                 (id.Err? ==> c.result == Err(id.error))) &&
              (!HasOwn(reply.value, "txid") ==> c.result.Err? && c.result.error.Thrown?)
  {
    var v := ValidateCurrenciesConstructPair(baseCurrency, quoteCurrency);
    if v.Err? {
      return Call([], Err(Raised(v.error)));
    }
    var currencies := v.value;
    if !baseAmount.Num? || baseAmount.n == 0.0 {
      return Call([], Err(Raised(Create(MSG_BAD_AMOUNT, MODULE_ERROR, None))));
    }
    if !limitPrice.Num? || limitPrice.n < 0.0 {
      return Call([], Err(Raised(Create(MSG_BAD_PRICE, MODULE_ERROR, None))));
    }
    var price := limitPrice.n;
    price := CurrencyHelper.JsMathRound(10.0 * price) as real / 10.0;
    var orderType := if baseAmount.n < 0.0 then Constants.TYPE_SELL_ORDER else Constants.TYPE_BUY_ORDER;
    var amountSubUnit := CurrencyHelper.Abs(baseAmount.n);
    var amountMainUnit := CurrencyHelper.FromSmallestSubunit(amountSubUnit, Some(currencies.baseCurrency));
    var sent := [Request("AddOrder", Some(AddOrderParams(currencies.pair, orderType, price, amountMainUnit)))];
    if reply.Err? {
      return Call(sent, Err(reply.error));
    }
    var res := reply.value;
    if !HasOwn(res, "txid") {
      return Call(sent, Err(Thrown("Cannot read property '0' of undefined")));
    }
    var externalId := FirstOf(Get(res, "txid").value);
    if externalId.Err? {
      return Call(sent, Err(externalId.error));
    }
    return Call(sent, Ok(PlacedTrade(externalId.value, "limit", "open", baseAmount.n,
                                     currencies.baseCurrency, currencies.quoteCurrency, price, res)));
  }

  /** The volume sent is the main-unit amount, which converts back to exactly the number of
      subunits asked for. */
  lemma PlacedVolumeRoundTrip(n: int, baseCurrency: string)
    ensures CurrencyHelper.ToSmallestSubunit(
              CurrencyHelper.FromSmallestSubunit(CurrencyHelper.Abs(n as real), Some(baseCurrency)),
              Some(baseCurrency)) == if n < 0 then -n else n
  {
    var m := if n < 0 then -n else n;
    assert CurrencyHelper.Abs(n as real) == m as real;
    CurrencyHelper.SubunitRoundTrip(m, Some(baseCurrency));
  }

  /** Selling 1000000 satoshi sends a volume of 0.01 BTC. */
  lemma PlacedVolumeFixture()
    ensures CurrencyHelper.FromSmallestSubunit(CurrencyHelper.Abs(-1000000.0), Some("BTC")) == 0.01
    ensures CurrencyHelper.FromSmallestSubunit(CurrencyHelper.Abs(100000000.0), Some("BTC")) == 1.0
  {
    CurrencyHelper.ConversionExamples();
  }
}
