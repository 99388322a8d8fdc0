/** `getBalance`: the account totals, and the amounts still available once the funds
    reserved by open orders are subtracted. */
module KrakenBalance {
  import opened Wrappers
  import opened Json
  import opened ErrorHelper
  import CurrencyHelper
  import opened Kraken

  /** The part of an open order's `descr` the reservation reads. */
  datatype OrderDescr = OrderDescr(pair: string, orderType: string, price: real)

  datatype OpenOrder = OpenOrder(descr: OrderDescr, vol: real)

  /** The `result` of an OpenOrders request: `open` lists the orders in property order. */
  datatype OpenOrders = OpenOrders(open: Option<seq<OpenOrder>>)

  /** One amount per currency the balance reports, in smallest subunits. */
  datatype Amounts = Amounts(usd: int, eur: int, btc: int, bsv: int)

  datatype Balance = Balance(available: Amounts, total: Amounts)

  /** `toSubtractFromTotal`: the reserved amount under each of its four keys (XBT, EUR,
      USD, BSV). An order under any other key adds to a property that is never read. */
  datatype Reserved = Reserved(xbt: int, eur: int, usd: int, bsv: int)

  const NOTHING_RESERVED: Reserved := Reserved(0, 0, 0, 0)

  /** `toSubtractFromTotal[key] += amount`. */
  function AddTo(r: Reserved, key: string, amount: int): (s: Reserved)
    ensures s.xbt == r.xbt + (if key == "XBT" then amount else 0)
    ensures s.eur == r.eur + (if key == "EUR" then amount else 0)
    ensures s.usd == r.usd + (if key == "USD" then amount else 0)
    ensures s.bsv == r.bsv + (if key == "BSV" then amount else 0)
  {
    match key
    case "XBT" => r.(xbt := r.xbt + amount)
    case "EUR" => r.(eur := r.eur + amount)
    case "USD" => r.(usd := r.usd + amount)
    case "BSV" => r.(bsv := r.bsv + amount)
    case _ => r
  }

  /** What one order reserves, and under which key. A sell reserves its volume in
      subunits of the base; a buy reserves its limit price, converted with the precision
      of the name 'XBT' or 'BSV' (two decimals), under the quote currency; any other order
      type reserves nothing. */
  function Claim(order: OpenOrder): (string, int) {
    var baseCurrency := Slice(order.descr.pair, 0, 3);
    var quoteCurrency := SliceFrom(order.descr.pair, 3);
    var baseCurrencyToConvert := if baseCurrency == "XBT" then "BTC" else baseCurrency;
    if order.descr.orderType == "sell" then
      (baseCurrency, CurrencyHelper.ToSmallestSubunit(order.vol, Some(baseCurrencyToConvert)))
    else if order.descr.orderType == "buy" then
      (quoteCurrency, CurrencyHelper.ToSmallestSubunit(order.descr.price, Some(baseCurrency)))
    else ("", 0)
  }

  /** What one order reserves on its own. */
  function ReservedByOne(order: OpenOrder): Reserved {
    AddTo(NOTHING_RESERVED, Claim(order).0, Claim(order).1)
  }

  function Plus(x: Reserved, y: Reserved): Reserved {
    Reserved(x.xbt + y.xbt, x.eur + y.eur, x.usd + y.usd, x.bsv + y.bsv)
  }

  /** The sum of `claim` over a sequence of orders. */
  function SumBy(claim: OpenOrder -> Reserved, orders: seq<OpenOrder>): Reserved {
    if |orders| == 0 then NOTHING_RESERVED
    else Plus(claim(orders[0]), SumBy(claim, orders[1..]))
  }

  /** The reservations of a sequence of orders: the sum of what each one reserves. */
  function ReservedBy(orders: seq<OpenOrder>): Reserved {
    SumBy(ReservedByOne, orders)
  }

  /** Adding one order's claim to the accumulator adds what the order reserves. */
  lemma ClaimAdds(r: Reserved, order: OpenOrder)
    ensures AddTo(r, Claim(order).0, Claim(order).1) == Plus(r, ReservedByOne(order))
  {
  }

  lemma {:induction false} SumByConcat(claim: OpenOrder -> Reserved, a: seq<OpenOrder>, b: seq<OpenOrder>)
    ensures SumBy(claim, a + b) == Plus(SumBy(claim, a), SumBy(claim, b))
  {
    if |a| == 0 {
      assert a + b == b;
    } else {
      assert (a + b)[1..] == a[1..] + b;
      SumByConcat(claim, a[1..], b);
    }
  }

  lemma SumBySingle(claim: OpenOrder -> Reserved, order: OpenOrder)
    ensures SumBy(claim, [order]) == claim(order)
  {
    assert [order][1..] == [];
  }

  /** Reservations add up: the orders of two responses reserve the sum of what each does. */
  lemma ReservedByConcat(a: seq<OpenOrder>, b: seq<OpenOrder>)
    ensures ReservedBy(a + b) == Plus(ReservedBy(a), ReservedBy(b))
  {
    SumByConcat(ReservedByOne, a, b);
  }

  lemma ReservedBySingle(order: OpenOrder)
    ensures ReservedBy([order]) == ReservedByOne(order)
  {
    SumBySingle(ReservedByOne, order);
  }

  /** Reserving one more order adds what that order reserves. */
  lemma ReservedBySnoc(orders: seq<OpenOrder>, order: OpenOrder)
    ensures ReservedBy(orders + [order]) == Plus(ReservedBy(orders), ReservedByOne(order))
  {
    ReservedByConcat(orders, [order]);
    ReservedBySingle(order);
  }

  /** Taking one order out of a sequence takes its element out of the multiset and its
      claim out of the sum. */
  lemma {:induction false} SumByRemove(claim: OpenOrder -> Reserved, b: seq<OpenOrder>, i: nat)
    requires i < |b|
    ensures multiset(b[..i] + b[i + 1..]) == multiset(b) - multiset{b[i]}
    ensures SumBy(claim, b) == Plus(claim(b[i]), SumBy(claim, b[..i] + b[i + 1..]))
  {
    var left, x, right := b[..i], b[i], b[i + 1..];
    assert b == left + [x] + right;
    assert multiset(b) == multiset(left) + multiset{x} + multiset(right);
    SumByConcat(claim, left + [x], right);
    SumByConcat(claim, left, [x]);
    SumBySingle(claim, x);
    SumByConcat(claim, left, right);
  }

  /** Where an order that occurs in a sequence stands in it. */
  ghost function IndexOf(b: seq<OpenOrder>, x: OpenOrder): (i: nat)
    requires x in multiset(b)
    ensures i < |b| && b[i] == x
  {
    if b[0] == x then 0
    else
      assert b == [b[0]] + b[1..];
      1 + IndexOf(b[1..], x)
  }

  lemma TailMultiset(ma: multiset<OpenOrder>, mb: multiset<OpenOrder>, x: OpenOrder,
                     ta: multiset<OpenOrder>, tb: multiset<OpenOrder>)
    requires ma == mb && ma == multiset{x} + ta && tb == mb - multiset{x}
    ensures ta == tb
  {
  }

  lemma {:induction false} SumByPermutation(claim: OpenOrder -> Reserved, a: seq<OpenOrder>, b: seq<OpenOrder>)
    requires multiset(a) == multiset(b)
    ensures SumBy(claim, a) == SumBy(claim, b)
    decreases |a|
  {
    if |a| == 0 {
      assert |b| == |multiset(b)| == 0;
    } else {
      var i := IndexOf(b, a[0]);
      var rest := b[..i] + b[i + 1..];
      SumByRemove(claim, b, i);
      assert multiset(a[1..]) == multiset(rest) by {
        assert a == [a[0]] + a[1..];
        TailMultiset(multiset(a), multiset(b), a[0], multiset(a[1..]), multiset(rest));
      }
      SumByPermutation(claim, a[1..], rest);
    }
  }

  /** So the order in which Kraken lists the open orders does not matter: any permutation
      of them reserves the same amounts. */
  lemma ReservedByIsOrderIndependent(a: seq<OpenOrder>, b: seq<OpenOrder>)
    requires multiset(a) == multiset(b)
    ensures ReservedBy(a) == ReservedBy(b)
  {
    SumByPermutation(ReservedByOne, a, b);
  }

  /** A buy reserves its limit price in hundredths under the quote currency, whatever its
      volume and whichever of the two bases it buys, and nothing in either base: the price
      is converted with the precision of the name 'XBT' or 'BSV', which is two decimals. */
  lemma BuyReservesPrice(base: string, quote: string, price: real, vol: real)
    requires base == "XBT" || base == "BSV"
    requires quote == "EUR" || quote == "USD"
    ensures var r := ReservedByOne(OpenOrder(OrderDescr(base + quote, "buy", price), vol));
            r.xbt == 0 && r.bsv == 0 &&
            (if quote == "EUR" then r.eur else r.usd) == CurrencyHelper.JsMathRound(price * 100.0) &&
            (if quote == "EUR" then r.usd else r.eur) == 0
  {
    assert Slice(base + quote, 0, 3) == base;
    assert SliceFrom(base + quote, 3) == quote;
  }

  /** A sell of bitcoin reserves its volume in satoshi under XBT. */
  lemma SellReservesVolume(quote: string, price: real, vol: real)
    ensures var r := ReservedByOne(OpenOrder(OrderDescr("XBT" + quote, "sell", price), vol));
            r == Reserved(CurrencyHelper.JsMathRound(vol * 100000000.0), 0, 0, 0)
  {
    assert Slice("XBT" + quote, 0, 3) == "XBT";
  }

  /** A sell of BSV reserves its volume under BSV, converted with two decimals, because
      only the name 'BTC' has eight. */
  lemma BsvSellReservesHundredths(quote: string, price: real, vol: real)
    ensures var r := ReservedByOne(OpenOrder(OrderDescr("BSV" + quote, "sell", price), vol));
            r == Reserved(0, 0, 0, CurrencyHelper.JsMathRound(vol * 100.0))
  {
    assert Slice("BSV" + quote, 0, 3) == "BSV";
  }

  /** The balance response's total for one Kraken asset name, or 0 when it is absent. */
  function TotalOf(balances: map<string, real>, asset: string, currency: string): int {
    if asset in balances then CurrencyHelper.ToSmallestSubunit(balances[asset], Some(currency)) else 0
  }

  function Totals(balances: map<string, real>): (t: Amounts)
    ensures "ZUSD" !in balances ==> t.usd == 0
    ensures "ZEUR" !in balances ==> t.eur == 0
    ensures "XXBT" !in balances ==> t.btc == 0
    ensures "BSV" !in balances ==> t.bsv == 0
  {
    Amounts(
      TotalOf(balances, "ZUSD", "USD"),
      TotalOf(balances, "ZEUR", "EUR"),
      TotalOf(balances, "XXBT", "BTC"),
      TotalOf(balances, "BSV", "BSV"))
  }

  function Available(total: Amounts, reserved: Reserved): Amounts {
    Amounts(total.usd - reserved.usd, total.eur - reserved.eur, total.btc - reserved.xbt, total.bsv - reserved.bsv)
  }

  /** `getBalance()`: a Balance request, then an OpenOrders request with an empty form. */
  method GetBalance(balanceReply: Result<map<string, real>, Failure>, ordersReply: Result<OpenOrders, Failure>)
    returns (c: Call<Balance>)
    ensures balanceReply.Err? ==> c == Call([Request("Balance", None)], Err(balanceReply.error))
    ensures balanceReply.Ok? ==> c.sent == [Request("Balance", None), Request("OpenOrders", Some([]))]
    ensures balanceReply.Ok? && ordersReply.Err? ==> c.result == Err(ordersReply.error)
    ensures balanceReply.Ok? && ordersReply.Ok? ==>
              var total := Totals(balanceReply.value);
              c.result == Ok(Balance(Available(total, ReservedBy(ordersReply.value.open.GetOr([]))), total))
  {
    var sent := [Request("Balance", None)];
    if balanceReply.Err? {
      return Call(sent, Err(balanceReply.error));
    }
    sent := sent + [Request("OpenOrders", Some([]))];
    if ordersReply.Err? {
      return Call(sent, Err(ordersReply.error));
    }
    var total := Totals(balanceReply.value);
    var orders := ordersReply.value.open.GetOr([]);
    var toSubtract := NOTHING_RESERVED;
    var i := 0;
    while i < |orders|
      invariant 0 <= i <= |orders|
      invariant toSubtract == ReservedBy(orders[..i])
    {
      var order := orders[i];
      var baseCurrency := Slice(order.descr.pair, 0, 3);
      var quoteCurrency := SliceFrom(order.descr.pair, 3);
      var baseCurrencyToConvert := if baseCurrency == "XBT" then "BTC" else baseCurrency;
      if order.descr.orderType == "sell" {
        toSubtract := AddTo(toSubtract, baseCurrency,
          CurrencyHelper.ToSmallestSubunit(order.vol, Some(baseCurrencyToConvert)));
      } else if order.descr.orderType == "buy" {
        toSubtract := AddTo(toSubtract, quoteCurrency,
          CurrencyHelper.ToSmallestSubunit(order.descr.price, Some(baseCurrency)));
      }
      ClaimAdds(ReservedBy(orders[..i]), order);
      assert orders[..i + 1] == orders[..i] + [order];
      ReservedBySnoc(orders[..i], order);
      i := i + 1;
    }
    assert orders[..i] == orders;
    return Call(sent, Ok(Balance(Available(total, toSubtract), total)));
  }

  /** Available plus reserved is the total, currency by currency. */
  lemma AvailablePlusReservedIsTotal(balances: map<string, real>, orders: seq<OpenOrder>)
    ensures var total := Totals(balances);
            var r := ReservedBy(orders);
            var a := Available(total, r);
            a.usd + r.usd == total.usd && a.eur + r.eur == total.eur &&
            a.btc + r.xbt == total.btc && a.bsv + r.bsv == total.bsv
  {
  }

  /** Without open orders everything is available. */
  lemma NoOrdersNoReservation(balances: map<string, real>)
    ensures Available(Totals(balances), ReservedBy([])) == Totals(balances)
  {
  }

  /** The account with 5.0568 EUR and 12.67210938 BTC has these totals. */
  lemma TotalsFixture()
    ensures Totals(map["ZEUR" := 5.0568, "XXBT" := 12.67210938]) == Amounts(0, 506, 1267210938, 0)
  {
  }

  /** With one buy at price 1 on XBTEUR and one sell of 1 BTC on XBTUSD open, 1.00 EUR and
      1 BTC are reserved, which leaves 406 of 506 EUR cents and 1167210938 of 1267210938
      satoshi of that account available. */
  lemma ReservationFixture()
    ensures ReservedBy([OpenOrder(OrderDescr("XBTEUR", "buy", 1.0), 4.0),
                        OpenOrder(OrderDescr("XBTUSD", "sell", 100000.0), 1.0)])
            == Reserved(100000000, 100, 0, 0)
  {
    BuyFixture(OpenOrder(OrderDescr("XBTEUR", "buy", 1.0), 4.0));
    SellFixture(OpenOrder(OrderDescr("XBTUSD", "sell", 100000.0), 1.0));
    ReservedByTwo(OpenOrder(OrderDescr("XBTEUR", "buy", 1.0), 4.0),
                  OpenOrder(OrderDescr("XBTUSD", "sell", 100000.0), 1.0));
  }

  /** The balance of the account with 5.0568 EUR and 12.67210938 BTC and the two open
      orders above. */
  lemma BalanceFixture()
    ensures Available(Totals(map["ZEUR" := 5.0568, "XXBT" := 12.67210938]),
                      ReservedBy([OpenOrder(OrderDescr("XBTEUR", "buy", 1.0), 4.0),
                                  OpenOrder(OrderDescr("XBTUSD", "sell", 100000.0), 1.0)]))
            == Amounts(0, 406, 1167210938, 0)
  {
    TotalsFixture();
    ReservationFixture();
  }

  lemma ReservedByTwo(first: OpenOrder, second: OpenOrder)
    ensures ReservedBy([first, second]) == Plus(ReservedByOne(first), ReservedByOne(second))
  {
    ReservedBySnoc([], first);
    ReservedBySnoc([first], second);
    assert [first] + [second] == [first, second];
  }

  lemma BuyFixture(buy: OpenOrder)
    requires buy == OpenOrder(OrderDescr("XBTEUR", "buy", 1.0), 4.0)
    ensures ReservedByOne(buy) == Reserved(0, 100, 0, 0)
  {
    assert Slice("XBTEUR", 0, 3) == "XBT" && SliceFrom("XBTEUR", 3) == "EUR";
  }

  lemma SellFixture(sell: OpenOrder)
    requires sell == OpenOrder(OrderDescr("XBTUSD", "sell", 100000.0), 1.0)
    ensures ReservedByOne(sell) == Reserved(100000000, 0, 0, 0)
  {
    assert Slice("XBTUSD", 0, 3) == "XBT";
  }
}
