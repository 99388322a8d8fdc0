/** Translation between Kraken's asset codes and the normalised currency codes, and the
    conversion of one Kraken ledger entry into a transaction value. */
module ApiResponseConverter {
  import opened Wrappers
  import CurrencyHelper

  /** Kraken asset code to normalised code. Several Kraken spellings (the bare and the
      X-prefixed form) name the same currency. */
  const FROM_KRAKEN: map<string, string> := map[
    "KFEE" := "KFEE",
    "XETC" := "ETC",
    "XETH" := "ETH",
    "XLTC" := "LTC",
    "XNMC" := "NMC",
    "XXBT" := "BTC",
    "XBT" := "BTC",
    "BSV" := "BSV",
    "XXDG" := "DOGE",
    "XDG" := "DOGE",
    "XXLM" := "XLM",
    "XLM" := "XLM",
    "XXRP" := "XRP",
    "XRP" := "XRP",
    "XXVN" := "XVN",
    "XVN" := "XVN",
    "ZCAD" := "CAD",
    "ZEUR" := "EUR",
    "ZGBP" := "GBP",
    "ZJPY" := "JPY",
    "ZKRW" := "KRW",
    "ZUSD" := "USD"
  ]

  /** Normalised code to Kraken asset code. */
  const TO_KRAKEN: map<string, string> := map[
    "KFEE" := "KFEE",
    "ETC" := "XETC",
    "ETH" := "XETH",
    "LTC" := "XLTC",
    "NMC" := "XNMC",
    "BTC" := "XXBT",
    "BSV" := "BSV",
    "DOGE" := "XXDG",
    "XLM" := "XXLM",
    "XRP" := "XXRP",
    "XVN" := "XXVN",
    "CAD" := "ZCAD",
    "EUR" := "ZEUR",
    "GBP" := "ZGBP",
    "JPY" := "ZJPY",
    "KRW" := "ZKRW",
    "USD" := "ZUSD"
  ]

  /** The Kraken codes that are a second spelling of a currency rather than its canonical code. */
  const ALIASES: set<string> := {"XBT", "XDG", "XLM", "XRP", "XVN"}

  /** `convertFromKrakenCurrencyCode`: a table lookup; an unknown code gives undefined. */
  function ConvertFromKrakenCurrencyCode(krakenCode: string): (r: Option<string>)
    ensures r.Some? <==> krakenCode in FROM_KRAKEN
    ensures r.Some? ==> r.value == FROM_KRAKEN[krakenCode]
  {
    if krakenCode in FROM_KRAKEN then Some(FROM_KRAKEN[krakenCode]) else None
  }

  /** `convertToKrakenCurrencyCode`: a table lookup; an unknown code gives undefined. */
  function ConvertToKrakenCurrencyCode(code: string): (r: Option<string>)
    ensures r.Some? <==> code in TO_KRAKEN
    ensures r.Some? ==> r.value == TO_KRAKEN[code]
  {
    if code in TO_KRAKEN then Some(TO_KRAKEN[code]) else None
  }

  /** Every normalised code survives the trip to Kraken and back. */
  lemma ToThenFromIsIdentity(code: string)
    requires code in TO_KRAKEN
    ensures ConvertToKrakenCurrencyCode(code).Some?
    ensures ConvertFromKrakenCurrencyCode(ConvertToKrakenCurrencyCode(code).value) == Some(code)
  {
    if code in {"KFEE", "ETC", "ETH", "LTC", "NMC", "BTC"} {
    } else if code in {"BSV", "DOGE", "XLM", "XRP", "XVN"} {
    } else {
      assert code in {"CAD", "EUR", "GBP", "JPY", "KRW", "USD"};
    }
  }

  /** The tables mirror each other: every known Kraken code comes back as itself, unless it
      is one of the alias spellings, which come back in their canonical form. */
  lemma FromThenToIsCanonical(krakenCode: string)
    requires krakenCode in FROM_KRAKEN
    ensures ConvertFromKrakenCurrencyCode(krakenCode).Some?
    ensures var code := ConvertFromKrakenCurrencyCode(krakenCode).value;
            code in TO_KRAKEN &&
            (krakenCode !in ALIASES <==> TO_KRAKEN[code] == krakenCode) &&
            (krakenCode in ALIASES ==> TO_KRAKEN[code] == "X" + krakenCode)
  {
    if krakenCode in ALIASES {
      AliasIsPrefixed(krakenCode);
      assert |"X" + krakenCode| != |krakenCode|;
    } else {
      CanonicalCodeComesBack(krakenCode);
    }
  }

  lemma AliasIsPrefixed(krakenCode: string)
    requires krakenCode in ALIASES
    ensures krakenCode in FROM_KRAKEN && FROM_KRAKEN[krakenCode] in TO_KRAKEN
    ensures TO_KRAKEN[FROM_KRAKEN[krakenCode]] == "X" + krakenCode
  {
  }

  lemma CanonicalCodeComesBack(krakenCode: string)
    requires krakenCode in FROM_KRAKEN && krakenCode !in ALIASES
    ensures FROM_KRAKEN[krakenCode] in TO_KRAKEN
    ensures TO_KRAKEN[FROM_KRAKEN[krakenCode]] == krakenCode
  {
    if krakenCode in {"KFEE", "XETC", "XETH", "XLTC", "XNMC", "XXBT"} {
    } else if krakenCode in {"BSV", "XXDG", "XXLM", "XXRP", "XXVN"} {
    } else {
      assert krakenCode in {"ZCAD", "ZEUR", "ZGBP", "ZJPY", "ZKRW", "ZUSD"};
    }
  }

  /** The Kraken-to-normalised table is many-to-one: both spellings of bitcoin give BTC. */
  lemma FromIsNotInjective()
    ensures ConvertFromKrakenCurrencyCode("XBT") == ConvertFromKrakenCurrencyCode("XXBT") == Some("BTC")
    ensures ConvertFromKrakenCurrencyCode("XDG") == ConvertFromKrakenCurrencyCode("XXDG") == Some("DOGE")
  {
  }

  /** The normalised codes the adapter trades in, and two codes outside the table. */
  lemma KnownCodes()
    ensures ConvertToKrakenCurrencyCode("USD") == Some("ZUSD")
    ensures ConvertToKrakenCurrencyCode("EUR") == Some("ZEUR")
    ensures ConvertToKrakenCurrencyCode("BTC") == Some("XXBT")
    ensures ConvertToKrakenCurrencyCode("KFEE") == Some("KFEE")
    ensures ConvertToKrakenCurrencyCode("BSV") == Some("BSV")
    ensures ConvertToKrakenCurrencyCode("XBT") == None
  {
  }

  /** The Kraken codes of balances and ledger entries, and a code outside the table. */
  lemma KnownKrakenCodes()
    ensures ConvertFromKrakenCurrencyCode("ZUSD") == Some("USD")
    ensures ConvertFromKrakenCurrencyCode("ZEUR") == Some("EUR")
    ensures ConvertFromKrakenCurrencyCode("KFEE") == Some("KFEE")
    ensures ConvertFromKrakenCurrencyCode("BSV") == Some("BSV")
    ensures ConvertFromKrakenCurrencyCode("BTC") == None
  {
  }

  /** `new Date(seconds * 1000).toISOString()`, kept symbolic: the text rendering of a
      timestamp is JavaScript's and is not modelled. */
  datatype IsoTimestamp = IsoOfEpochSeconds(seconds: real)

  function ConvertKrakenTimestampToISOString(timestampSeconds: real): (t: IsoTimestamp)
    ensures t.seconds == timestampSeconds
  {
    IsoOfEpochSeconds(timestampSeconds)
  }

  /** One entry of Kraken's Ledgers reply. `amount`, `fee` and `balance` are the decimal
      strings' exact values. */
  datatype LedgerEntry = LedgerEntry(
    refid: string,
    time: real,
    entryType: string,
    aclass: string,
    asset: string,
    amount: real,
    fee: real,
    balance: real)

  /** The internal transaction shape. `currency` is undefined when the asset is unknown. */
  datatype Transaction = Transaction(
    externalId: string,
    timestamp: IsoTimestamp,
    state: string,
    amount: int,
    currency: Option<string>,
    transactionType: string,
    raw: LedgerEntry)

  /** The conversion of a present ledger entry. */
  function ConvertLedgerEntry(entry: LedgerEntry): (t: Transaction)
    ensures t.externalId == entry.refid && t.state == "completed"
    ensures t.transactionType == entry.entryType && t.raw == entry
    ensures t.timestamp.seconds == entry.time
    ensures t.currency == ConvertFromKrakenCurrencyCode(entry.asset)
    ensures t.amount == CurrencyHelper.ToSmallestSubunit(entry.amount, t.currency)
  {
    var currency := ConvertFromKrakenCurrencyCode(entry.asset);
    Transaction(
      entry.refid,
      ConvertKrakenTimestampToISOString(entry.time),
      "completed",
      CurrencyHelper.ToSmallestSubunit(entry.amount, currency),
      currency,
      entry.entryType,
      entry)
  }

  /** `convertFromKrakenTransaction`: null for a missing entry, otherwise the conversion. */
  function ConvertFromKrakenTransaction(transaction: Option<LedgerEntry>): (r: Option<Transaction>)
    ensures r.None? <==> transaction.None?
    ensures r.Some? ==> r.value == ConvertLedgerEntry(transaction.value)
  {
    match transaction
    case None => None
    case Some(entry) => Some(ConvertLedgerEntry(entry))
  }

  /** The amount is the entry's amount in sub-units of its currency, with its sign kept and
      within half a sub-unit of the exact value. */
  lemma TransactionAmount(entry: LedgerEntry)
    ensures var t := ConvertLedgerEntry(entry);
            var m := CurrencyHelper.Scale(t.currency);
            (entry.amount >= 0.0 ==> t.amount >= 0) &&
            (entry.amount <= 0.0 ==> t.amount <= 0) &&
            entry.amount * m - 0.5 < t.amount as real <= entry.amount * m + 0.5
  {
    CurrencyHelper.ToSmallestSubunitKeepsSign(entry.amount, ConvertFromKrakenCurrencyCode(entry.asset));
  }

  /** An entry whose asset is unknown is kept: its currency is undefined and its amount is
      counted in hundredths. */
  lemma UnknownAssetIsKept(entry: LedgerEntry)
    requires entry.asset !in FROM_KRAKEN
    ensures ConvertFromKrakenTransaction(Some(entry)).Some?
    ensures var t := ConvertLedgerEntry(entry);
            t.currency.None? && t.amount == CurrencyHelper.JsMathRound(entry.amount * 100.0)
  {
  }

  lemma LedgerFixtures()
    ensures ConvertLedgerEntry(LedgerEntry("QGB2OUR-O5OQ6O-T5RZJF", 1420989927.5751, "deposit",
              "currency", "XXBT", 0.04657575, 0.0, 8.36846391)).amount == 4657575
    ensures ConvertLedgerEntry(LedgerEntry("ACLLUS5-JKRHGP-ZWWYSO", 1480675052.7086, "withdrawal",
              "currency", "ZUSD", -24952.59, 47.41, 4440.5843)).amount == -2495259
  {
    CurrencyHelper.ConversionExamples();
  }
}
