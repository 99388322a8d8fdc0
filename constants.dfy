/** The adapter's fixed configuration data: the API host and version, the default timeout,
    the order-type names, the default supported currencies and Kraken's endpoint lists. */
module Constants {

  const HOST: string := "https://api.kraken.com"
  const API_VERSION: string := "0"
  /** Two minutes, in milliseconds. */
  const REQUEST_TIMEOUT: nat := 120000
  const TYPE_SELL_ORDER: string := "sell"
  const TYPE_BUY_ORDER: string := "buy"
  const DEFAULT_SUPPORTED_CURRENCIES: seq<string> := ["ETH", "BTC", "BSV", "EUR", "USD"]

  /** Endpoints Kraken serves without authentication. */
  const PUBLIC_METHODS: seq<string> :=
    ["Time", "Assets", "AssetPairs", "Ticker", "Depth", "Trades", "Spread", "OHLC"]

  /** Endpoints that need an API key, a nonce and a signature. */
  const PRIVATE_METHODS: seq<string> :=
    ["Balance", "TradeBalance", "OpenOrders", "ClosedOrders", "QueryOrders", "TradesHistory",
     "QueryTrades", "OpenPositions", "Ledgers", "QueryLedgers", "TradeVolume", "AddOrder",
     "CancelOrder", "DepositMethods", "DepositAddresses", "DepositStatus", "WithdrawInfo",
     "Withdraw", "WithdrawStatus", "WithdrawCancel"]
}
