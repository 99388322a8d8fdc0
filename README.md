# Kraken exchange adapter, modelled in Dafny

This project models the core of `kraken-exc`, a Node.js adapter that turns Kraken's REST
API into an internal trading and accounting model. It covers five pieces of the source:

- **Subunit arithmetic.** BTC has 8 decimals and every other code has 2. The model covers
  conversion between main units and smallest subunits, and the phpjs `round`, which sends
  halves away from zero.
- **Currency-code tables.** These map normalised codes to Kraken asset codes and back. The
  model also covers the conversion of one ledger entry into a transaction.
- **Request helpers.**
  - The choice between a public and a private endpoint.
  - The options a POST sends: the credential check and, for private calls, the nonce,
    the one-time password and the API-key and API-Sign headers.
  - The ordered classification of an HTTP reply.
- **The endpoints of `index.js`:**
  - pair validation;
  - order book and ticker;
  - the balance reservation loop;
  - `getTrade`, with its QueryTrades-then-QueryOrders fallback, trade id extraction and
    trade construction;
  - `placeTrade`;
  - the Ledgers pagination loop and the merged, time-sorted transaction list.
- **Error values** and their two codes.

Every HTTP call is an input. An endpoint takes the outcome of each request it would make.
The paginated Ledgers endpoint takes the sequence of pages Kraken serves, one per request.
Each endpoint returns `Call(sent, result)`: the requests it sent, in order, and what it
called back with. This makes "no request is sent when validation fails" a provable
statement.

Amounts, prices and times are exact rationals (`real`):
- `Math.round(x)` is `floor(x + 1/2)`;
- the phpjs `round` is modelled step by step;
- it is proved equal to an independent half-away-from-zero reference.

JavaScript `undefined` is `None`, and truthiness is written out where the code relies on
it. Lookups of a key an object lacks, which throw a TypeError in the source, become a
`Thrown` failure.

Modules follow the source files:
- `CurrencyHelper`, `ApiResponseConverter`, `RequestHelper`, `ErrorHelper` and
  `Constants` follow the files under `lib/`;
- `Kraken` covers the constructor and pair validation;
- `KrakenMarket`, `KrakenBalance`, `KrakenTrades` and `KrakenLedger` cover the endpoints
  of `index.js`;
- `Wrappers` and `Json` are support modules.

Three behaviours of the code are worth stating up front, because the model follows them
exactly:
- **Pairs.** `index.js` accepts only BTC or BSV as the base and USD or EUR as the quote.
- **Buy reservations.** A buy reserves `Math.round(price · 100)` of the quote. The buy of
  4 BTC at 1.00 EUR in `test/unit/getBalance.test.js` therefore reserves 100 EUR
  subunits, and the test's balance leaves 406 of 506 available.
- **Unparsable bodies.** An unparsable HTTP body gives an `internal_module_error`, not
  an exchange-server error.

## Model

| member | source | states |
|---|---|---|
| ErrorHelper.Create | lib/ErrorHelper.js:13-21 | the error carries the given message and code, its cause is present exactly when the given cause is truthy, and it has no exchange messages and no response body |
| ErrorHelper.CodesAreDistinct | lib/ErrorHelper.js:1-2 | the exchange-server and module error codes differ |
| ErrorHelper.NullCauseIsAbsent | lib/ErrorHelper.js:16-18 | a null, undefined or empty-string cause leaves no cause on the error |
| CurrencyHelper.GetDecimalsForCurrency | lib/CurrencyHelper.js:8-14 | 8 exactly for `BTC`; 2 for every other input, including `XBT`, `BSV` and undefined |
| CurrencyHelper.JsMathRound | lib/CurrencyHelper.js:48 | `Math.round`: an integer within half of x, with halves going up |
| CurrencyHelper.Trunc | index.js:463 | `Math.trunc`: towards zero, so within one of x and never farther from zero |
| CurrencyHelper.Sign | lib/CurrencyHelper.js:71 | the sign of the value: -1, 0 or 1, positive and negative exactly as the value |
| CurrencyHelper.HalfAwayFromZero | lib/CurrencyHelper.js:52-65 | reference rounding: an integer within half of x, and an exact half goes away from zero |
| CurrencyHelper.ToSmallestSubunit | lib/CurrencyHelper.js:46-49 | the nearest integer to amount · 10^d, with halves going up |
| CurrencyHelper.RoundScaledIsHalfAwayFromZero | lib/CurrencyHelper.js:70-79 | the phpjs steps (sign, half detection with `%`, floor, `Math.round`) equal the reference on every value |
| CurrencyHelper.RoundIsHalfAwayFromZero | lib/CurrencyHelper.js:66-80 | `round(v, p)` is the reference rounding of v · 10^p, divided by 10^p |
| CurrencyHelper.RoundIsOnGrid | lib/CurrencyHelper.js:66-80 | `round(v, p)` · 10^p is an integer |
| CurrencyHelper.RoundIsNearest | lib/CurrencyHelper.js:66-80 | no value on the 10^-p grid is closer to v than `round(v, p)` |
| CurrencyHelper.RoundErrorBound | lib/CurrencyHelper.js:66-80 | `round(v, p)` is within half a grid step of v |
| CurrencyHelper.RoundHalfAwayFromZero | lib/CurrencyHelper.js:75-76 | an exact half moves away from zero: up for positive values, down for negative |
| CurrencyHelper.RoundIsOdd | lib/CurrencyHelper.js:71-79 | `round(-v, p) == -round(v, p)` |
| CurrencyHelper.RoundOfZero | lib/CurrencyHelper.js:66-80 | `round(0, p) == 0` |
| CurrencyHelper.RoundOfGridValue | lib/CurrencyHelper.js:66-80 | a value with at most p decimals is left unchanged |
| CurrencyHelper.RoundIsIdempotent | lib/CurrencyHelper.js:66-80 | rounding twice is rounding once |
| CurrencyHelper.RoundExamples | lib/CurrencyHelper.js:66-80 | `round(2.5,0)=3`, `round(-2.5,0)=-3`, `round(2.4,0)=2` |
| CurrencyHelper.FromSmallestSubunitOfInteger | lib/CurrencyHelper.js:28-31 | for an integer n the main-unit amount is exactly n / 10^d |
| CurrencyHelper.SubunitRoundTrip | lib/CurrencyHelper.js:15-49 | `toSmallestSubunit(fromSmallestSubunit(n, c), c) == n` for every integer n and every currency |
| CurrencyHelper.MainUnitRoundTrip | lib/CurrencyHelper.js:15-49 | `fromSmallestSubunit(toSmallestSubunit(a, c), c) == a` when a has at most d decimals |
| CurrencyHelper.MainUnitRoundTripError | lib/CurrencyHelper.js:15-49 | for any amount the round trip moves it by at most half a subunit |
| CurrencyHelper.ToSmallestSubunitKeepsSign | lib/CurrencyHelper.js:46-49 | non-negative amounts give non-negative subunits, non-positive give non-positive |
| CurrencyHelper.ConversionExamples | lib/CurrencyHelper.js:28-49 | 0.04657575 BTC is 4657575, -24952.59 USD is -2495259; 1000000, 100000000 and 1250000 satoshi are 0.01, 1 and 0.0125 BTC |
| ApiResponseConverter.ConvertFromKrakenCurrencyCode | lib/ApiResponseConverter.js:52-79 | defined exactly on the table's keys and equal to the table there; undefined otherwise |
| ApiResponseConverter.ConvertToKrakenCurrencyCode | lib/ApiResponseConverter.js:88-110 | defined exactly on the table's keys and equal to the table there; undefined otherwise |
| ApiResponseConverter.ToThenFromIsIdentity | lib/ApiResponseConverter.js:53-107 | converting a known code to Kraken and back returns it |
| ApiResponseConverter.FromThenToIsCanonical | lib/ApiResponseConverter.js:53-107 | a Kraken code converts back to itself unless it is one of the aliases XBT, XDG, XLM, XRP or XVN, which go to the `X`-prefixed code |
| ApiResponseConverter.FromIsNotInjective | lib/ApiResponseConverter.js:59-63 | XBT and XXBT both give BTC; XDG and XXDG both give DOGE |
| ApiResponseConverter.KnownCodes | lib/ApiResponseConverter.js:88-110 | USD, EUR and BTC map to ZUSD, ZEUR and XXBT; KFEE and BSV map to themselves; XBT has no Kraken code |
| ApiResponseConverter.KnownKrakenCodes | lib/ApiResponseConverter.js:52-79 | ZUSD and ZEUR map to USD and EUR; KFEE and BSV map to themselves; BTC is no Kraken code |
| ApiResponseConverter.ConvertKrakenTimestampToISOString | lib/ApiResponseConverter.js:42-44 | the timestamp keeps the epoch seconds it was made from |
| ApiResponseConverter.ConvertLedgerEntry | lib/ApiResponseConverter.js:21-32 | the id is refid, the state is `completed`, the type and raw entry are copied, the currency is the converted asset and the amount is its subunits in that currency |
| ApiResponseConverter.ConvertFromKrakenTransaction | lib/ApiResponseConverter.js:16-34 | a falsy input gives null; a present entry gives its conversion |
| ApiResponseConverter.TransactionAmount | lib/ApiResponseConverter.js:21-22 | the amount keeps the entry's sign and is the nearest subunit count |
| ApiResponseConverter.UnknownAssetIsKept | lib/ApiResponseConverter.js:21-22 | an unknown asset is not dropped: the currency is undefined and the amount uses 2 decimals |
| ApiResponseConverter.LedgerFixtures | test/unit/apiResponseConverter.test.js:76-105 | the XXBT deposit gives 4657575 and the ZUSD withdrawal gives -2495259 |
| RequestHelper.DecidePublicOrPrivateMethod | lib/RequestHelper.js:36-38 | `public` exactly when the action is in the public list, `private` otherwise |
| RequestHelper.PrivateForm | lib/RequestHelper.js:156-160 | the form's nonce is set; its otp is the configured one when that is truthy and otherwise the caller's; every other field is the caller's |
| RequestHelper.Post | lib/RequestHelper.js:130-166 | fails with the credentials message exactly for a private action without truthy key and secret; otherwise POSTs to host + `/0/<kind>/<action>` with the configured timeout. A public call sends the caller's form (`{}` when absent) and the two base headers; a private call sends the private form and adds API-key and API-Sign over the path, form and secret |
| RequestHelper.GetOptionsAsWritten | lib/RequestHelper.js:109-120 | the GET options as written: the url is the host directly followed by `0/<kind>/<action>`, with method GET and the configured timeout |
| RequestHelper.GetUrlLacksSlashEverywhere | lib/RequestHelper.js:109-120 | for every host and action, the corrected url is the written one with a `/` inserted after the host, and the two urls always differ |
| RequestHelper.GetUrlLacksSlash | lib/RequestHelper.js:111-114 | with the default host, `get` for `Time` builds `https://api.kraken.com0/public/Time` |
| RequestHelper.GetRequestOptions | lib/RequestHelper.js:109-120 | corrected GET options: url is host + `/0/<kind>/<action>`, method GET, the configured timeout |
| RequestHelper.ResponseCallback | lib/RequestHelper.js:49-87 | checks, in order: a transport error gives EXCHANGE_SERVER_ERROR with that cause; an empty body gives EXCHANGE_SERVER_ERROR; a parse failure, and only that, gives MODULE_ERROR; exchange messages are kept verbatim with a cause built from them. Success holds exactly when all checks pass and the result is non-empty, and then it returns `data.result` |
| RequestHelper.ExchangeErrorKeepsMessages | lib/RequestHelper.js:72-77 | a non-empty error array gives EXCHANGE_SERVER_ERROR with the exchange message and the array as `errorMessages` |
| RequestHelper.EmptyResultIsError | lib/RequestHelper.js:82-84 | an empty or absent result gives `Response from kraken is empty.` |
| RequestHelper.SendRequest | lib/RequestHelper.js:93-99 | GET and POST go to the response callback; any other method gives MODULE_ERROR without a reply |
| Kraken.ToUpper | index.js:34-35 | upper-casing keeps the length and upper-cases each ASCII letter |
| Kraken.ToUpperOfUpper | index.js:34-35 | a string without lower-case letters is unchanged |
| Kraken.ValidateCurrenciesConstructPair | index.js:26-54 | a missing code gives the MODULE_ERROR `Missing base currency or quote currency`; success holds exactly when the upper-cased codes are BTC or BSV and USD or EUR; every other failure is the "only supports" MODULE_ERROR; the result holds the upper-cased codes |
| Kraken.PairNames | index.js:44-46 | BTC gives Kraken base XBT and pair `XXBTZ<quote>`; BSV gives BSV and `BSV<quote>` |
| Kraken.PairIsInjective | index.js:45-46 | two accepted pairs with the same pair name have the same base and quote |
| Kraken.PairExamples | index.js:26-54 | `btc`/`eUR` gives BTC/EUR with Kraken pair XXBTZEUR; BSV/USD gives BSVUSD |
| Kraken.RejectedPairExamples | index.js:26-54 | ETH/EUR fails with the "only supports" message; a missing base gives the missing-currency message |
| Kraken.KrakenCodes | index.js:20-21 | every supported currency is replaced by its Kraken code, in order |
| Kraken.DefaultKrakenCodes | index.js:20-21 | the defaults become XETH, XXBT, BSV, ZEUR, ZUSD |
| Kraken.Kraken.constructor | index.js:12-22 | key, secret and otp are copied; an empty host or zero timeout falls back to the defaults; the supported currencies are converted to Kraken codes |
| KrakenMarket.WithAlias | index.js:96-98 | a `BTC/USD` entry is copied to XXBTZUSD; every other key is untouched |
| KrakenMarket.ConvertRawEntries | index.js:112-123 | length and order are kept; each entry becomes its price and its volume in base subunits |
| KrakenMarket.ConvertRawEntriesAppend | index.js:122-123 | converting a concatenation converts each part |
| KrakenMarket.GetOrderBook | index.js:82-127 | a validation error sends nothing; otherwise one Depth request for the pair. A request error is relayed; a pair missing after aliasing gives `Currency pair: <pair> is not in response`; otherwise the book holds the converted bids and asks, absent lists becoming [] |
| KrakenMarket.AlternativeKeyIsRead | index.js:96-100 | a reply keyed `BTC/USD` still gives the BTC/USD book |
| KrakenMarket.OrderBookFixtures | test/unit/getOrderBook.test.js:104-108 | volume 3.044 gives 304400000 and 1.933 gives 193300000 |
| KrakenMarket.GetTicker | index.js:147-190 | a validation error sends nothing; otherwise one Ticker request, whose error is relayed. A reply that holds the pair always gives the ticker: bid, ask and last are `b[0]`, `a[0]`, `c[0]`; high, low and vwap are slot `[1]` of h, l and p; the volume is `v[1]` in base subunits; a missing pair throws |
| KrakenMarket.TickerVolumeFixture | test/unit/getTicker.test.js:104 | 4173.76106173 BTC is 417376106173 |
| KrakenBalance.AddTo | index.js:253-256 | adding to a reservation key changes only that key's counter |
| KrakenBalance.ClaimAdds | index.js:242-259 | one loop step adds exactly what the order reserves on its own |
| KrakenBalance.ReservedByConcat | index.js:242-259 | the reservations of two runs of orders add up |
| KrakenBalance.ReservedBySnoc | index.js:242-259 | one more order adds its own reservation |
| KrakenBalance.ReservedByIsOrderIndependent | index.js:242-259 | any permutation of the open orders (equal multisets) reserves the same amounts, so the order Kraken lists them in does not matter |
| KrakenBalance.BuyReservesPrice | index.js:255-256 | a buy of an XBT or BSV pair reserves `Math.round(price · 100)` of the quote, whatever the volume, and nothing else |
| KrakenBalance.SellReservesVolume | index.js:252-253 | a sell of an XBT pair reserves the volume in satoshi and nothing else |
| KrakenBalance.BsvSellReservesHundredths | index.js:243-253 | a sell of a BSV pair reserves `Math.round(vol · 100)` under BSV: only the name `BTC` gets 8 decimals |
| KrakenBalance.Totals | index.js:223-228 | a currency absent from the reply has total 0 |
| KrakenBalance.GetBalance | index.js:209-274 | Balance, then OpenOrders with an empty form; an error of either is relayed; otherwise the loop's accumulated reservation equals that of all open orders, available is total minus it, and total is the converted balances |
| KrakenBalance.AvailablePlusReservedIsTotal | index.js:261-266 | available plus reserved is the total, for each currency |
| KrakenBalance.NoOrdersNoReservation | index.js:261-266 | without open orders everything is available |
| KrakenBalance.TotalsFixture | test/unit/getBalance.test.js:75-76 | 5.0568 EUR and 12.67210938 BTC give totals 506 and 1267210938 |
| KrakenBalance.ReservationFixture | test/unit/getBalance.test.js:34-51 | the buy of 4 at 1.00 EUR and the sell of 1 BTC reserve 100 EUR and 100000000 satoshi |
| KrakenBalance.BuyFixture | test/unit/getBalance.test.js:34-41 | the buy of 4 at 1.00 EUR reserves 100 EUR subunits and nothing else |
| KrakenBalance.SellFixture | test/unit/getBalance.test.js:43-50 | the sell of 1 BTC reserves 100000000 satoshi and nothing else |
| KrakenBalance.BalanceFixture | test/unit/getBalance.test.js:70-76 | available is 0 USD, 406 EUR and 1167210938 satoshi |
| KrakenTrades.PairCurrencies | index.js:406-408 | a trade pair reads characters 1-3 and 5.., an order pair 0-2 and 3..; XBT becomes BTC |
| KrakenTrades.NormalizeState | index.js:414-417 | `canceled` becomes `cancelled`; every other status is kept |
| KrakenTrades.ConstructTradeObject | index.js:401-440 | a missing id throws. The fee currency is the quote; quote and fee amounts are null exactly when the state is `open`; base is negated exactly for a sell and quote exactly for a buy; the fee is never negated. A trade is `closed`; an order has its renamed status |
| KrakenTrades.TradeSigns | index.js:423-432 | with non-negative amounts, a sell has non-positive base and non-negative quote, a buy the opposite, and the fee is non-negative |
| KrakenTrades.BtcPairsDecode | index.js:406-408 | `XXBTZ<quote>` trades and `XBT<quote>` or `BSV<quote>` orders decode to their currencies |
| KrakenTrades.BsvTradePairIsMisread | index.js:406-407 | a trade pair `BSVEUR` decodes as base `SVE` and quote `R` |
| KrakenTrades.StateExamples | index.js:414-417 | `canceled` gives `cancelled`; `open` and `closed` are kept |
| KrakenTrades.TradeFixture | test/unit/getTrade.test.js:141-148 | the XXBTZEUR sell of 0.01 at cost 507 gives -1000000, quote 50700 and fee 1 in EUR |
| KrakenTrades.OpenOrderFixture | test/unit/getTrade.test.js:211-213 | an open XBTEUR sell order of 4 gives -400000000 with null quote and fee |
| KrakenTrades.FirstOf | index.js:382 | `txid[0]`: the first element of an array, undefined for an empty one, a throw for null |
| KrakenTrades.GetTransactionIdFromTrade | index.js:379-385 | `raw.txid[0]` when raw has a txid, else raw's first property name |
| KrakenTrades.TransactionIdExamples | index.js:379-385 | a placed trade yields its txid and an order result yields its key |
| KrakenTrades.GetTrade | index.js:303-372 | a missing trade or raw fails before any request. QueryTrades is sent first; `EOrder:Invalid order` alone leads to QueryOrders with the same txid; any other error is relayed; the found entry is constructed as a trade or an order |
| KrakenTrades.GetTradeFallsBackOnlyOnInvalidOrder | index.js:323-327 | at most two requests: QueryTrades first, QueryOrders second with the same parameters, exactly on an invalid-order error |
| KrakenTrades.RoundToTenth | index.js:571 | the rounded price is within 0.05 of the given one and has one decimal |
| KrakenTrades.RoundToTenthExamples | test/unit/placeTrade.test.js:47-74 | 10000.57 gives 10000.6, 100 stays 100, 0.05 gives 0.1 |
| KrakenTrades.PlaceTrade | index.js:555-610 | a validation error, an undefined, NaN or zero amount, or an undefined, NaN or negative price fails before any request, and 0 is accepted as a price. Every other call sends exactly one AddOrder: a sell exactly for a negative amount, the rounded price and the main-unit volume of the absolute amount. The result is `limit`, `open`, with the signed amount, the rounded price and `txid[0]`, and it succeeds whenever the reply has a `txid` that is not null, with `txid[0]` as the external id; a relayed error, a missing `txid` or a null `txid` fails |
| KrakenTrades.PlacedVolumeRoundTrip | index.js:575-581 | the volume sent converts back to exactly the absolute subunit amount |
| KrakenTrades.PlacedVolumeFixture | test/unit/placeTrade.test.js:61 | 1000000 and 100000000 satoshi are sent as 0.01 and 1 BTC |
| KrakenLedger.FirstStop | index.js:529-536 | the first page that is an error, a non-object or empty |
| KrakenLedger.FetchedHoldsEveryPage | index.js:524-527 | an entry is in the run's list exactly when it is on one of its pages |
| KrakenLedger.FetchedKeepsMultiplicity | index.js:524-527 | no entry is lost or duplicated |
| KrakenLedger.ConvertAll | index.js:524 | every entry of a page is converted, in order |
| KrakenLedger.LedgerParamsFields | index.js:503-509 | the form holds the type and `ofs`, and a `start` only when a non-zero one is known |
| KrakenLedger.LedgerRequests | index.js:503-510 | the i-th request's `ofs` is the number of entries fetched before it |
| KrakenLedger.RunStopsAt | index.js:510-533 | a run stops at its first stopping page |
| KrakenLedger.RunRequests | index.js:503-510 | one request per page up to the stopping one, all Ledgers requests of the run's type, the first at offset 0 |
| KrakenLedger.RunReturnsEveryEntry | index.js:524-533 | a successful run returns the converted entries of all pages before the empty one |
| KrakenLedger.EmptyFirstPage | index.js:529-533 | an empty first page gives one request at offset 0 and no transactions |
| KrakenLedger.TwoPages | index.js:499-537 | pages of 2, 1 and 0 entries give requests at offsets 0, 2 and 3, newest page first |
| KrakenLedger.NextPage | index.js:524-527 | a page of entries that does not stop the run puts its converted entries in front of those fetched before |
| KrakenLedger.LedgerError | index.js:517-519 | the exchange-server error with the unexpected-Ledgers message, no cause, and the given response as its body |
| KrakenLedger.UnexpectedLedgerKeepsBody | index.js:516-520 | a run ending on a non-object ledger fails with that error, whose body is the whole response of that page |
| KrakenLedger.ListTransactionsRecursive | index.js:499-538 | the loop sends the run's requests and returns its outcome: the page's error, the non-object error carrying that page's response as its body, or every entry fetched |
| KrakenLedger.Insert | index.js:481 | inserting adds exactly one element |
| KrakenLedger.InsertKeepsOrder | index.js:481 | inserting into a sorted list keeps it sorted |
| KrakenLedger.InsertIsStable | index.js:481 | an inserted element goes after those of equal key |
| KrakenLedger.SortBy | index.js:481 | the result is sorted, a permutation of the input, and keeps equal keys in input order |
| KrakenLedger.SortOfSortedIsIdentity | index.js:481 | a sorted list is left as it is |
| KrakenLedger.SortByTime | index.js:481 | `_.sortBy(transactions, ['raw.time'])`: ascending by ledger time, a permutation, stable |
| KrakenLedger.SortByTimeOfSorted | index.js:481 | a list already in time order is unchanged |
| KrakenLedger.ListTransactions | index.js:452-487 | withdrawals first, from `trunc(latest.raw.time)`; an error of either run is relayed; otherwise both runs' transactions are merged and sorted by time |
| KrakenLedger.WithdrawalsBeforeDeposits | index.js:466-478 | every withdrawal request comes before every deposit request |

## Left out

- ApiResponseConverter.ConvertFromKrakenCurrencyCode: the table is a map whose only keys are the object literal's own. In JavaScript, `table[code]` for an inherited key such as `constructor`, `toString` or `hasOwnProperty` returns an `Object.prototype` member instead of undefined. The model returns undefined for those keys.
- ApiResponseConverter.ConvertToKrakenCurrencyCode: the same as for ConvertFromKrakenCurrencyCode. Inherited `Object.prototype` keys are treated as absent, while the source would return the inherited member.
- HTTP transport, timeouts and the logger: every request's outcome is an input instead.
- Request signing (HMAC-SHA512 over SHA-256, base64, URL encoding) is kept as a symbolic `Signature` of path, form and secret.
- The wall clock: the nonce is `clockMillis · 1000` for a given `clockMillis`.
- `JSON.parse` and `JSON.stringify`: a parse outcome is an input. Where the source attaches `JSON.stringify` of a value (the Ledgers response body, the exchange message list), the model keeps that JSON value, not its text.
- `parseFloat` and IEEE-754 arithmetic: amounts are exact rationals, so float artefacts of `Math.round(a·10^d)` are not modelled.
- `convertKrakenTimestampToISOString`: a value holding its epoch seconds, not ISO 8601 text.
- Kraken.ToUpper: only ASCII letters are upper-cased, while `toUpperCase` also handles other scripts.
- The callback style: each endpoint is a sequential call, and the `listTransactions(callback)` shorthand and `post`'s function-as-params shorthand are not modelled.
- `post` writes the nonce into the caller's params object in place. The model builds a new form, so that aliasing is not captured.
- KrakenTrades.GetTransactionIdFromTrade: a raw value that is not an object is not modelled.
- KrakenTrades.GetTrade: a non-string txid throws in the model. The source would look up its string form. When no id is found, the model sends `txid: null` where the source sends nothing.
- KrakenTrades.GetTrade: the `!callback` half of the first check is not modelled, because a call always has a continuation here.
- KrakenLedger.ConvertAll: a null ledger value, which the source would convert to null, is not modelled.
- KrakenLedger.ListTransactionsRecursive: requires that some page ends the run, so endless pagination is not modelled.
- `listTradeHistoryForPeriod` and `listTrades`: test/unit/listTrades.test.js and test/unit/listTradeHistoryForPeriod.test.js call them, but `index.js` does not define them.

## Findings

| source | as written | input that shows it | evidently intended | confidence | as-written member | corrected member |
|---|---|---|---|---|---|---|
| lib/RequestHelper.js:111 | `get` builds the path `0/<kind>/<action>` without the leading slash that `post` uses | default host and action `Time` give the url `https://api.kraken.com0/public/Time` | host + `/0/public/Time`, as for POST | high; not executed | RequestHelper.GetUrlLacksSlash | RequestHelper.GetRequestOptions |
