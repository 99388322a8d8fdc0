/** `listTransactions` and `_listTransactionsRecursive`: Ledgers requests page by page
    until an empty page, first for withdrawals and then for deposits, and the merged list
    sorted by ledger time. The pages Kraken serves are given as a sequence, one reply per
    request. */
module KrakenLedger {
  import opened Wrappers
  import opened Json
  import opened ErrorHelper
  import CurrencyHelper
  import opened ApiResponseConverter
  import opened Kraken

  /** The `ledger` property of a Ledgers result: an object of entries, or something else,
      in which case the whole result is kept as the body the error reports. */
  datatype LedgerValue = NotAnObject(response: Json) | Entries(entries: seq<LedgerEntry>)

  datatype LedgerReply = LedgerReply(ledger: LedgerValue)

  /** The outcome of one Ledgers request. */
  type Page = Result<LedgerReply, Failure>

  /** A page after which no further request is made: an error, a non-object ledger or an
      empty ledger. */
  predicate Stops(page: Page) {
    page.Err? || page.value.ledger.NotAnObject? || |page.value.ledger.entries| == 0
  }

  /** Kraken eventually serves a page that ends the run. */
  predicate EndsRun(pages: seq<Page>) {
    exists i :: 0 <= i < |pages| && Stops(pages[i])
  }

  /** The index of the page that ends the run. */
  function FirstStop(pages: seq<Page>): (k: nat)
    requires EndsRun(pages)
    ensures k < |pages| && Stops(pages[k])
    ensures forall j :: 0 <= j < k ==> !Stops(pages[j])
  {
    if Stops(pages[0]) then 0
    else
      assert EndsRun(pages[1..]) by {
        var i :| 0 <= i < |pages| && Stops(pages[i]);
        assert pages[1..][i - 1] == pages[i];
      }
      var k := 1 + FirstStop(pages[1..]);
      assert forall j :: 1 <= j < k ==> pages[j] == pages[1..][j - 1];
      k
  }

  function EntriesOf(page: Page): seq<LedgerEntry> {
    if page.Ok? && page.value.ledger.Entries? then page.value.ledger.entries else []
  }

  /** The entries of a run of pages as the code accumulates them: each page's entries go in
      front of those fetched before. */
  function Fetched(pages: seq<Page>): seq<LedgerEntry>
    decreases |pages|
  {
    if |pages| == 0 then [] else EntriesOf(pages[|pages| - 1]) + Fetched(pages[..|pages| - 1])
  }

  /** An entry is fetched exactly when it is on one of the pages. */
  lemma {:induction false} FetchedHoldsEveryPage(pages: seq<Page>, e: LedgerEntry)
    ensures e in Fetched(pages) <==> exists i :: 0 <= i < |pages| && e in EntriesOf(pages[i])
    decreases |pages|
  {
    if |pages| > 0 {
      var init := pages[..|pages| - 1];
      FetchedHoldsEveryPage(init, e);
      if e in Fetched(pages) {
        if e !in EntriesOf(pages[|pages| - 1]) {
          var i :| 0 <= i < |init| && e in EntriesOf(init[i]);
          assert pages[i] == init[i];
        }
      } else {
        forall i | 0 <= i < |pages| ensures e !in EntriesOf(pages[i]) {
          if i < |init| {
            assert pages[i] == init[i];
          }
        }
      }
    }
  }

  /** No entry is lost or repeated: the run holds as many entries as its pages. */
  lemma {:induction false} FetchedKeepsMultiplicity(pages: seq<Page>)
    ensures multiset(Fetched(pages)) == PageMultiset(pages)
    decreases |pages|
  {
    if |pages| > 0 {
      FetchedKeepsMultiplicity(pages[..|pages| - 1]);
    }
  }

  function PageMultiset(pages: seq<Page>): multiset<LedgerEntry>
    decreases |pages|
  {
    if |pages| == 0 then multiset{} else PageMultiset(pages[..|pages| - 1]) + multiset(EntriesOf(pages[|pages| - 1]))
  }

  /** f applied to every element, in order. */
  function MapAll<A, B>(f: A -> B, s: seq<A>): (r: seq<B>)
    ensures |r| == |s|
    ensures forall i :: 0 <= i < |s| ==> r[i] == f(s[i])
  {
    if |s| == 0 then [] else [f(s[0])] + MapAll(f, s[1..])
  }

  lemma MapAllConcat<A, B>(f: A -> B, a: seq<A>, b: seq<A>)
    ensures MapAll(f, a + b) == MapAll(f, a) + MapAll(f, b)
  {
    assert forall i :: 0 <= i < |a + b| ==> MapAll(f, a + b)[i] == (MapAll(f, a) + MapAll(f, b))[i];
  }

  /** `_.values(ledger).map(convertFromKrakenTransaction)`. */
  function ConvertAll(entries: seq<LedgerEntry>): (r: seq<Transaction>)
    ensures |r| == |entries|
    ensures forall i :: 0 <= i < |entries| ==> r[i] == ConvertLedgerEntry(entries[i])
  {
    MapAll(ConvertLedgerEntry, entries)
  }

  /** The form of one Ledgers request. */
  function LedgerParams(kind: string, start: Option<int>, ofs: nat): Fields {
    var postData := [("type", JStr(kind)), ("ofs", JNum(ofs as real))];
    if start.Some? && start.value != 0 then postData + [("start", JNum(start.value as real))] else postData
  }

  /** The form holds the kind and the offset, and a start only when one is known and not
      zero. */
  lemma LedgerParamsFields(kind: string, start: Option<int>, ofs: nat)
    ensures var f := LedgerParams(kind, start, ofs);
            Get(f, "type") == Some(JStr(kind)) &&
            Get(f, "ofs") == Some(JNum(ofs as real)) &&
            (HasOwn(f, "start") <==> start.Some? && start.value != 0)
  {
    var f := LedgerParams(kind, start, ofs);
    assert f[0].0 == "type" && f[1..][0].0 == "ofs";
    if start.Some? && start.value != 0 {
      assert f[1..][1..] == [("start", JNum(start.value as real))];
      assert HasOwn(f[1..][1..], "start");
    } else {
      assert f[1..][1..] == [];
      assert !HasOwn(f[1..], "start");
    }
  }

  function LedgerRequest(kind: string, start: Option<int>, ofs: nat): Request {
    Request("Ledgers", Some(LedgerParams(kind, start, ofs)))
  }

  /** The first n requests of a run: each one's offset is the number of entries fetched
      before it. */
  function LedgerRequests(kind: string, start: Option<int>, pages: seq<Page>, n: nat): (r: seq<Request>)
    requires n <= |pages|
    ensures |r| == n
    ensures forall i :: 0 <= i < n ==> r[i] == LedgerRequest(kind, start, |Fetched(pages[..i])|)
  {
    if n == 0 then []
    else LedgerRequests(kind, start, pages, n - 1) + [LedgerRequest(kind, start, |Fetched(pages[..n - 1])|)]
  }

  const MSG_UNEXPECTED_LEDGER: string := "Unexpected response from Ledgers endpoint"

  /** The error for a non-object ledger: `Error.create` of the message, with the response
      attached as its body. */
  function LedgerError(response: Json): (e: Error)
    ensures e.message == MSG_UNEXPECTED_LEDGER && e.code == EXCHANGE_SERVER_ERROR
    ensures e.cause.None? && e.errorMessages.None?
    ensures e.responseBody == Some(response)
  {
    Create(MSG_UNEXPECTED_LEDGER, EXCHANGE_SERVER_ERROR, None).(responseBody := Some(response))
  }

  /** The outcome of a run whose last page is `page`, with `known` converted before it:
      the page's error, the non-object error, or its entries in front of those known. */
  function Outcome(page: Page, known: seq<Transaction>): Result<seq<Transaction>, Failure> {
    if page.Err? then Err(page.error)
    else if page.value.ledger.NotAnObject? then Err(Raised(LedgerError(page.value.ledger.response)))
    else Ok(ConvertAll(page.value.ledger.entries) + known)
  }

  /** What a run over the given pages does. */
  function Run(kind: string, start: Option<int>, pages: seq<Page>): (c: Call<seq<Transaction>>)
    requires EndsRun(pages)
  {
    var k := FirstStop(pages);
    Call(LedgerRequests(kind, start, pages, k + 1), Outcome(pages[k], ConvertAll(Fetched(pages[..k]))))
  }

  /** The first page that stops is the one the run ends on. */
  lemma RunStopsAt(kind: string, start: Option<int>, pages: seq<Page>, n: nat)
    requires EndsRun(pages)
    requires n <= FirstStop(pages) && Stops(pages[n])
    ensures n == FirstStop(pages)
    ensures Run(kind, start, pages) ==
            Call(LedgerRequests(kind, start, pages, n + 1), Outcome(pages[n], ConvertAll(Fetched(pages[..n]))))
  {
  }

  /** The run's requests: one per page up to the last, all of the one kind, the offset of
      each the number of entries received so far, the first one at offset 0. */
  lemma RunRequests(kind: string, start: Option<int>, pages: seq<Page>)
    requires EndsRun(pages)
    ensures var c := Run(kind, start, pages);
            |c.sent| == FirstStop(pages) + 1 &&
            c.sent[0] == LedgerRequest(kind, start, 0) &&
            (forall i :: 0 <= i < |c.sent| ==>
               c.sent[i].action == "Ledgers" && Get(c.sent[i].params.value, "type") == Some(JStr(kind)))
  {
    assert pages[..0] == [];
  }

  /** A successful run returns every entry of every page, converted, and nothing else. */
  lemma RunReturnsEveryEntry(kind: string, start: Option<int>, pages: seq<Page>)
    requires EndsRun(pages)
    requires Run(kind, start, pages).result.Ok?
    ensures var k := FirstStop(pages);
            Run(kind, start, pages).result.value == ConvertAll(Fetched(pages[..k])) &&
            multiset(Fetched(pages[..k])) == PageMultiset(pages[..k])
  {
    FetchedKeepsMultiplicity(pages[..FirstStop(pages)]);
  }

  /** A first page that is empty ends the run with nothing. */
  lemma EmptyFirstPage(kind: string, pages: seq<Page>)
    requires |pages| > 0 && pages[0] == Ok(LedgerReply(Entries([])))
    ensures EndsRun(pages)
    ensures Run(kind, None, pages) == Call([LedgerRequest(kind, None, 0)], Ok([]))
  {
    assert Stops(pages[0]);
    assert FirstStop(pages) == 0;
    assert pages[..0] == [];
    assert LedgerRequests(kind, None, pages, 1) == [LedgerRequest(kind, None, 0)];
    assert ConvertAll([]) == [];
    assert Run(kind, None, pages).result.value == [];
  }

  /** A run that ends on a non-object ledger fails with the exchange-server error, and the
      error carries that page's whole response as its body. */
  lemma UnexpectedLedgerKeepsBody(kind: string, start: Option<int>, pages: seq<Page>)
    requires EndsRun(pages)
    requires pages[FirstStop(pages)].Ok? && pages[FirstStop(pages)].value.ledger.NotAnObject?
    ensures var e := Run(kind, start, pages).result;
            e.Err? && e.error.Raised? &&
            e.error.error.message == MSG_UNEXPECTED_LEDGER &&
            e.error.error.code == EXCHANGE_SERVER_ERROR &&
            e.error.error.responseBody == Some(pages[FirstStop(pages)].value.ledger.response)
  {
  }

  /** A full page is followed by a request at the offset of its length; the entries of
      the pages come back converted, the later page first. */
  lemma TwoPages(kind: string, e1: LedgerEntry, e2: LedgerEntry, e3: LedgerEntry)
    ensures var pages: seq<Page> := [Ok(LedgerReply(Entries([e1, e2]))), Ok(LedgerReply(Entries([e3]))), Ok(LedgerReply(Entries([])))];
            EndsRun(pages) &&
            Run(kind, None, pages) ==
              Call([LedgerRequest(kind, None, 0), LedgerRequest(kind, None, 2), LedgerRequest(kind, None, 3)],
                   Ok([ConvertLedgerEntry(e3), ConvertLedgerEntry(e1), ConvertLedgerEntry(e2)]))
  {
    var pages: seq<Page> := [Ok(LedgerReply(Entries([e1, e2]))), Ok(LedgerReply(Entries([e3]))), Ok(LedgerReply(Entries([])))];
    assert Stops(pages[2]);
    assert !Stops(pages[0]) && !Stops(pages[1]);
    assert pages[..0] == [];
    assert pages[..1] == [pages[0]] && pages[..1][..0] == [];
    assert pages[..2] == [pages[0], pages[1]] && pages[..2][..1] == [pages[0]];
    assert Fetched(pages[..1]) == [e1, e2];
    assert Fetched(pages[..2]) == [e3, e1, e2];
    assert FirstStop(pages) == 2;
    var sent := LedgerRequests(kind, None, pages, 3);
    assert sent == [sent[0], sent[1], sent[2]];
    assert ConvertAll([]) == [];
    assert ConvertAll([e3, e1, e2]) == [ConvertLedgerEntry(e3), ConvertLedgerEntry(e1), ConvertLedgerEntry(e2)];
    assert Run(kind, None, pages).result.value == ConvertAll([e3, e1, e2]);
  }

  /** A page of entries that does not stop the run adds its converted entries in front. */
  lemma NextPage(pages: seq<Page>, n: nat)
    requires n < |pages| && pages[n].Ok? && pages[n].value.ledger.Entries?
    ensures ConvertAll(Fetched(pages[..n + 1]))
         == ConvertAll(pages[n].value.ledger.entries) + ConvertAll(Fetched(pages[..n]))
  {
    assert pages[..n + 1][..n] == pages[..n];
    MapAllConcat(ConvertLedgerEntry, pages[n].value.ledger.entries, Fetched(pages[..n]));
  }

  /** `_listTransactionsRecursive(type, start, [])`, with the recursion as a loop. */
  method ListTransactionsRecursive(kind: string, start: Option<int>, pages: seq<Page>)
    returns (c: Call<seq<Transaction>>)
    requires EndsRun(pages)
    ensures c == Run(kind, start, pages)
  {
    var knownTransactions: seq<Transaction> := [];
    var sent: seq<Request> := [];
    var n := 0;
    while true
      invariant 0 <= n <= FirstStop(pages)
      invariant knownTransactions == ConvertAll(Fetched(pages[..n]))
      invariant sent == LedgerRequests(kind, start, pages, n)
      decreases FirstStop(pages) - n
    {
      var postData := LedgerParams(kind, start, |knownTransactions|);
      sent := sent + [Request("Ledgers", Some(postData))];
      assert sent == LedgerRequests(kind, start, pages, n + 1);
      var response := pages[n];
      if response.Err? {
        RunStopsAt(kind, start, pages, n);
        return Call(sent, Err(response.error));
      }
      if response.value.ledger.NotAnObject? {
        RunStopsAt(kind, start, pages, n);
        return Call(sent, Err(Raised(LedgerError(response.value.ledger.response))));
      }
      var transactions := ConvertAll(response.value.ledger.entries);
      var allTransactions := transactions + knownTransactions;
      if |response.value.ledger.entries| == 0 {
        RunStopsAt(kind, start, pages, n);
        return Call(sent, Ok(allTransactions));
      }
      NextPage(pages, n);
      knownTransactions := allTransactions;
      n := n + 1;
    }
  }

  /** The start for a run: the latest known transaction's time, truncated to a second. */
  function StartOf(latestTransaction: Option<Transaction>): Option<int> {
    if latestTransaction.Some? then Some(CurrencyHelper.Trunc(latestTransaction.value.raw.time)) else None
  }

  /** s is in ascending order of key. */
  predicate SortedBy<T>(key: T -> real, s: seq<T>) {
    forall i, j :: 0 <= i < j < |s| ==> key(s[i]) <= key(s[j])
  }

  /** The elements of s whose key is k, in order. */
  function WithKey<T>(key: T -> real, s: seq<T>, k: real): seq<T> {
    if |s| == 0 then []
    else if key(s[0]) == k then [s[0]] + WithKey(key, s[1..], k)
    else WithKey(key, s[1..], k)
  }

  lemma {:induction false} WithKeyConcat<T>(key: T -> real, a: seq<T>, b: seq<T>, k: real)
    ensures WithKey(key, a + b, k) == WithKey(key, a, k) + WithKey(key, b, k)
  {
    if |a| == 0 {
      assert a + b == b;
    } else {
      assert (a + b)[1..] == a[1..] + b;
      WithKeyConcat(key, a[1..], b, k);
    }
  }

  lemma {:induction false} NoneWithSmallerKey<T>(key: T -> real, s: seq<T>, k: real)
    requires forall i :: 0 <= i < |s| ==> k < key(s[i])
    ensures WithKey(key, s, k) == []
  {
    if |s| > 0 {
      NoneWithSmallerKey(key, s[1..], k);
    }
  }

  /** Insert x after every leading element whose key is not greater than its own. */
  function Insert<T>(key: T -> real, x: T, s: seq<T>): (r: seq<T>)
    ensures multiset(r) == multiset(s) + multiset{x}
  {
    if |s| == 0 then [x]
    else if key(x) < key(s[0]) then [x] + s
    else
      assert s == [s[0]] + s[1..];
      [s[0]] + Insert(key, x, s[1..])
  }

  lemma {:induction false} InsertKeepsOrder<T>(key: T -> real, x: T, s: seq<T>)
    requires SortedBy(key, s)
    ensures SortedBy(key, Insert(key, x, s))
  {
    if |s| > 0 && key(s[0]) <= key(x) {
      InsertKeepsOrder(key, x, s[1..]);
      InsertAbove(key, x, s[1..], key(s[0]));
      var rest := Insert(key, x, s[1..]);
      assert forall i :: 0 < i < |[s[0]] + rest| ==> ([s[0]] + rest)[i] == rest[i - 1];
    }
  }

  /** Inserting an element no smaller than a bound into a list no smaller than it keeps
      every element above the bound. */
  lemma {:induction false} InsertAbove<T>(key: T -> real, x: T, s: seq<T>, b: real)
    requires forall i :: 0 <= i < |s| ==> b <= key(s[i])
    requires b <= key(x)
    ensures forall i :: 0 <= i < |Insert(key, x, s)| ==> b <= key(Insert(key, x, s)[i])
  {
    if |s| > 0 && key(s[0]) <= key(x) {
      InsertAbove(key, x, s[1..], b);
      var rest := Insert(key, x, s[1..]);
      assert forall i :: 0 < i < |[s[0]] + rest| ==> ([s[0]] + rest)[i] == rest[i - 1];
    }
  }

  lemma {:induction false} InsertIsStable<T>(key: T -> real, x: T, s: seq<T>, k: real)
    requires SortedBy(key, s)
    ensures WithKey(key, Insert(key, x, s), k) == WithKey(key, s, k) + (if key(x) == k then [x] else [])
  {
    if |s| == 0 {
      assert [x][1..] == [];
    } else if key(x) < key(s[0]) {
      assert ([x] + s)[1..] == s;
      if key(x) == k {
        NoneWithSmallerKey(key, s, k);
      }
    } else {
      var rest := Insert(key, x, s[1..]);
      assert ([s[0]] + rest)[1..] == rest;
      InsertIsStable(key, x, s[1..], k);
    }
  }

  /** An insertion sort that keeps elements of equal key in their original order (the
      stability of `_.sortBy`). */
  function SortBy<T>(key: T -> real, s: seq<T>): (r: seq<T>)
    ensures SortedBy(key, r)
    ensures multiset(r) == multiset(s)
    ensures forall k :: WithKey(key, r, k) == WithKey(key, s, k)
    decreases |s|
  {
    if |s| == 0 then []
    else
      var init := s[..|s| - 1];
      var last := s[|s| - 1];
      assert s == init + [last];
      var sorted := SortBy(key, init);
      var r := Insert(key, last, sorted);
      InsertKeepsOrder(key, last, sorted);
      forall k ensures WithKey(key, r, k) == WithKey(key, s, k) {
        InsertIsStable(key, last, sorted, k);
        WithKeyConcat(key, init, [last], k);
        assert [last][1..] == [];
      }
      r
  }

  lemma {:induction false} InsertLast<T>(key: T -> real, x: T, s: seq<T>)
    requires forall i :: 0 <= i < |s| ==> key(s[i]) <= key(x)
    ensures Insert(key, x, s) == s + [x]
  {
    if |s| > 0 {
      InsertLast(key, x, s[1..]);
      assert s == [s[0]] + s[1..];
    }
  }

  /** Sorting a sequence already in order leaves it as it is. */
  lemma {:induction false} SortOfSortedIsIdentity<T>(key: T -> real, s: seq<T>)
    requires SortedBy(key, s)
    ensures SortBy(key, s) == s
    decreases |s|
  {
    if |s| > 0 {
      var init := s[..|s| - 1];
      SortOfSortedIsIdentity(key, init);
      InsertLast(key, s[|s| - 1], init);
      assert init + [s[|s| - 1]] == s;
    }
  }

  /** The ledger time of a transaction, the sort key `raw.time`. */
  function TimeOf(t: Transaction): real {
    t.raw.time
  }

  /** `_.sortBy(transactions, ['raw.time'])`: earliest first, a permutation of the input,
      transactions of the same time in their original order. */
  function SortByTime(s: seq<Transaction>): (r: seq<Transaction>)
    ensures forall i, j :: 0 <= i < j < |r| ==> r[i].raw.time <= r[j].raw.time
    ensures multiset(r) == multiset(s)
    ensures forall t :: WithKey(TimeOf, r, t) == WithKey(TimeOf, s, t)
  {
    var r := SortBy(TimeOf, s);
    assert forall i, j :: 0 <= i < j < |r| ==> TimeOf(r[i]) <= TimeOf(r[j]);
    r
  }

  /** A list already in time order is left as it is. */
  lemma SortByTimeOfSorted(s: seq<Transaction>)
    requires forall i, j :: 0 <= i < j < |s| ==> s[i].raw.time <= s[j].raw.time
    ensures SortByTime(s) == s
  {
    assert SortedBy(TimeOf, s);
    SortOfSortedIsIdentity(TimeOf, s);
  }

  /** `listTransactions(latestTransaction)`: all withdrawals, then all deposits, merged and
      sorted by ledger time. */
  method ListTransactions(latestTransaction: Option<Transaction>, withdrawalPages: seq<Page>, depositPages: seq<Page>)
    returns (c: Call<seq<Transaction>>)
    requires EndsRun(withdrawalPages) && EndsRun(depositPages)
    ensures var start := StartOf(latestTransaction);
            var w := Run("withdrawal", start, withdrawalPages);
            var d := Run("deposit", start, depositPages);
            (w.result.Err? ==> c == w) &&
            (w.result.Ok? ==> c.sent == w.sent + d.sent) &&
            (w.result.Ok? && d.result.Err? ==> c.result == d.result) &&
            (w.result.Ok? && d.result.Ok? ==> c.result == Ok(SortByTime(w.result.value + d.result.value)))
  {
    var start := StartOf(latestTransaction);
    var withdrawals := ListTransactionsRecursive("withdrawal", start, withdrawalPages);
    if withdrawals.result.Err? {
      return withdrawals;
    }
    var deposits := ListTransactionsRecursive("deposit", start, depositPages);
    var sent := withdrawals.sent + deposits.sent;
    if deposits.result.Err? {
      return Call(sent, deposits.result);
    }
    var transactions := withdrawals.result.value + deposits.result.value;
    return Call(sent, Ok(SortByTime(transactions)));
  }

  /** Every withdrawal request comes before every deposit request. */
  lemma WithdrawalsBeforeDeposits(start: Option<int>, withdrawalPages: seq<Page>, depositPages: seq<Page>)
    requires EndsRun(withdrawalPages) && EndsRun(depositPages)
    ensures var w := Run("withdrawal", start, withdrawalPages);
            var d := Run("deposit", start, depositPages);
            var sent := w.sent + d.sent;
            forall i, j :: 0 <= i < j < |sent| && Get(sent[j].params.value, "type") == Some(JStr("withdrawal")) ==>
              Get(sent[i].params.value, "type") == Some(JStr("withdrawal"))
  {
    RunRequests("withdrawal", start, withdrawalPages);
    RunRequests("deposit", start, depositPages);
    var w := Run("withdrawal", start, withdrawalPages);
    var d := Run("deposit", start, depositPages);
    var sent := w.sent + d.sent;
    assert JStr("deposit") != JStr("withdrawal");
    forall j | |w.sent| <= j < |sent| ensures Get(sent[j].params.value, "type") == Some(JStr("deposit")) {
      assert sent[j] == d.sent[j - |w.sent|];
    }
    forall i | 0 <= i < |w.sent| ensures Get(sent[i].params.value, "type") == Some(JStr("withdrawal")) {
      assert sent[i] == w.sent[i];
    }
  }
}
