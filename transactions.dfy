/** The transaction ledger of composables/useTransactions.ts: a log of buys
    and sells persisted as one localStorage entry, the per-symbol portfolio
    fold, and the aggregate figures computed from the log. Money and
    quantities are reals; dates are ISO day strings (YYYY-MM-DD). */
module Transactions {
  import opened Wrappers
  import opened Storage
  import opened Sorting
  import opened Seqs
  import Text

  datatype TxType = Buy | Sell

  datatype AssetType = TwStock | UsStock | CryptoAsset | Bond | FinancialProduct

  datatype Transaction = Transaction(
    id: string, kind: TxType, assetType: AssetType, symbol: string, stockName: string,
    date: string, quantity: real, price: real, fee: real, total: real)

  /** A transaction without its id, as the form submits it or as an older
      stored record holds it: the asset type may be missing. */
  datatype TxInput = TxInput(
    kind: TxType, assetType: Option<AssetType>, symbol: string, stockName: string,
    date: string, quantity: real, price: real, fee: real, total: real)

  datatype StoredTx = StoredTx(id: string, input: TxInput)

  /** The record with its id, the asset type defaulting to 'tw_stock'. */
  function Complete(id: string, t: TxInput): Transaction {
    Transaction(id, t.kind, t.assetType.GetOr(TwStock), t.symbol, t.stockName, t.date, t.quantity, t.price, t.fee, t.total)
  }

  function Stored(t: Transaction): StoredTx {
    StoredTx(t.id, TxInput(t.kind, Some(t.assetType), t.symbol, t.stockName, t.date, t.quantity, t.price, t.fee, t.total))
  }

  /** The backfill applied on load: every record completed, in order. */
  function Backfill(items: seq<StoredTx>): (r: seq<Transaction>)
    ensures |r| == |items|
    ensures forall i :: 0 <= i < |items| ==> r[i] == Complete(items[i].id, items[i].input)
    ensures forall i :: 0 <= i < |items| && items[i].input.assetType.Some? ==> Stored(r[i]) == items[i]
    ensures forall i :: 0 <= i < |items| && items[i].input.assetType.None? ==>
      r[i].assetType == TwStock && Stored(r[i]) == StoredTx(items[i].id, items[i].input.(assetType := Some(TwStock)))
  {
    seq(|items|, i requires 0 <= i < |items| => Complete(items[i].id, items[i].input))
  }

  /** JSON.stringify of the log and JSON.parse of the stored text (None
      where the text does not parse to an array of records). */
  datatype LogCodec = LogCodec(encode: seq<Transaction> -> string, decode: string -> Option<seq<StoredTx>>)

  ghost predicate LawfulLogCodec(codec: LogCodec) {
    forall txs :: codec.encode(txs) != "" && codec.decode(codec.encode(txs)) == Some(seq(|txs|, i requires 0 <= i < |txs| => Stored(txs[i])))
  }

  const TransactionsKey: string := "transactions"

  /** loadTransactions' result for the stored text: an absent or empty entry
      keeps the log as it is, an unreadable one empties it, a readable one
      replaces it, backfilled. */
  function LoadedLog(current: seq<Transaction>, stored: Option<string>, codec: LogCodec): seq<Transaction> {
    match stored
    case None => current
    case Some(text) =>
      if text == "" then current
      else match codec.decode(text)
        case None => []
        case Some(items) => Backfill(items)
  }

  /** What is saved is what is loaded back, whatever was in memory. */
  lemma SaveThenLoad(codec: LogCodec, txs: seq<Transaction>, current: seq<Transaction>)
    requires LawfulLogCodec(codec)
    ensures LoadedLog(current, Some(codec.encode(txs)), codec) == txs
  {
    var stored := seq(|txs|, i requires 0 <= i < |txs| => Stored(txs[i]));
    assert codec.decode(codec.encode(txs)) == Some(stored);
    var r := Backfill(stored);
    forall i | 0 <= i < |txs| ensures r[i] == txs[i] {
      assert stored[i] == Stored(txs[i]);
    }
  }

  // ---------------------------------------------------------------------------
  // Searching and summing the log

  /** findIndex by id. */
  function FirstIndexOf(txs: seq<Transaction>, id: string): (r: Option<nat>)
    ensures r.Some? ==> r.value < |txs| && txs[r.value].id == id && forall k :: 0 <= k < r.value ==> txs[k].id != id
    ensures r.None? ==> forall k :: 0 <= k < |txs| ==> txs[k].id != id
  {
    if txs == [] then None
    else if txs[0].id == id then Some(0)
    else match FirstIndexOf(txs[1..], id)
      case None => None
      case Some(k) => Some(k + 1)
  }

  function Signed(t: Transaction, amount: real): real {
    if t.kind.Buy? then amount else -amount
  }

  /** totalInvestment: the stored totals, buys counted positive and sells
      negative. */
  function TotalInvestment(txs: seq<Transaction>): real {
    if txs == [] then 0.0 else TotalInvestment(txs[..|txs| - 1]) + Signed(txs[|txs| - 1], txs[|txs| - 1].total)
  }

  /** Adding a transaction moves the invested total by its signed total. */
  lemma TotalInvestmentAppend(txs: seq<Transaction>, t: Transaction)
    ensures TotalInvestment(txs + [t]) == TotalInvestment(txs) + Signed(t, t.total)
  {
    assert (txs + [t])[..|txs|] == txs;
  }

  lemma {:induction false} TotalInvestmentConcat(a: seq<Transaction>, b: seq<Transaction>)
    ensures TotalInvestment(a + b) == TotalInvestment(a) + TotalInvestment(b)
  {
    if b != [] {
      var init := b[..|b| - 1];
      TotalInvestmentConcat(a, init);
      assert (a + b)[..|a + b| - 1] == a + init;
    } else {
      assert a + b == a;
    }
  }

  /** Deleting a transaction moves the invested total back by its signed total. */
  lemma TotalInvestmentRemove(txs: seq<Transaction>, k: nat)
    requires k < |txs|
    ensures TotalInvestment(txs[..k] + txs[k + 1..]) == TotalInvestment(txs) - Signed(txs[k], txs[k].total)
  {
    TotalInvestmentIsSum(txs);
    TotalInvestmentIsSum(txs[..k] + txs[k + 1..]);
    SumOfRemove(txs, k, SignedTotal);
  }

  /** A per-record amount summed over the log, in log order. */
  function SumOf(txs: seq<Transaction>, f: Transaction -> real): real {
    if txs == [] then 0.0 else SumOf(txs[..|txs| - 1], f) + f(txs[|txs| - 1])
  }

  lemma {:induction false} SumOfConcat(a: seq<Transaction>, b: seq<Transaction>, f: Transaction -> real)
    ensures SumOf(a + b, f) == SumOf(a, f) + SumOf(b, f)
  {
    if b != [] {
      SumOfConcat(a, b[..|b| - 1], f);
      assert (a + b)[..|a + b| - 1] == a + b[..|b| - 1];
    } else {
      assert a + b == a;
    }
  }

  lemma SumOfSnoc(s: seq<Transaction>, t: Transaction, f: Transaction -> real)
    ensures SumOf(s + [t], f) == SumOf(s, f) + f(t)
  {
    assert (s + [t])[..|s|] == s;
  }

  lemma SumOfRemove(s: seq<Transaction>, i: nat, f: Transaction -> real)
    requires i < |s|
    ensures SumOf(s, f) == SumOf(s[..i] + s[i + 1..], f) + f(s[i])
  {
    var left, right := s[..i], s[i + 1..];
    SplitAt(s, i);
    SumOfConcat(left + [s[i]], right, f);
    SumOfSnoc(left, s[i], f);
    SumOfConcat(left, right, f);
  }

  /** A sum over the log does not depend on the order of its records. */
  lemma {:induction false} SumOfPermutation(a: seq<Transaction>, b: seq<Transaction>, f: Transaction -> real)
    requires multiset(a) == multiset(b)
    ensures SumOf(a, f) == SumOf(b, f)
  {
    if a == [] {
      assert |b| == |multiset(b)| == 0;
    } else {
      var k := |a| - 1;
      var i := RemoveMatching(a, b, k);
      assert a[..k] + a[k + 1..] == a[..k];
      SumOfPermutation(a[..k], b[..i] + b[i + 1..], f);
      SumOfRemove(b, i, f);
    }
  }

  function SignedTotal(t: Transaction): real {
    Signed(t, t.total)
  }

  /** Reordering the log, as the history rebuild does when it sorts it in
      place, leaves the invested total as it was. */
  lemma {:induction false} TotalInvestmentPermutation(a: seq<Transaction>, b: seq<Transaction>)
    requires multiset(a) == multiset(b)
    ensures TotalInvestment(a) == TotalInvestment(b)
  {
    TotalInvestmentIsSum(a);
    TotalInvestmentIsSum(b);
    SumOfPermutation(a, b, SignedTotal);
  }

  lemma {:induction false} TotalInvestmentIsSum(txs: seq<Transaction>)
    ensures TotalInvestment(txs) == SumOf(txs, SignedTotal)
  {
    if txs != [] {
      TotalInvestmentIsSum(txs[..|txs| - 1]);
    }
  }

  /** totalReturnRate, guarded against a zero investment. */
  function TotalReturnRate(investment: real, value: real): (r: real)
    ensures investment == 0.0 ==> r == 0.0
    ensures investment != 0.0 ==> r * investment == (value - investment) * 100.0
  {
    if investment == 0.0 then 0.0 else (value - investment) / investment * 100.0
  }

  function Reverse<T>(s: seq<T>): (r: seq<T>)
    ensures |r| == |s|
  {
    if s == [] then [] else Reverse(s[1..]) + [s[0]]
  }

  lemma {:induction false} ReverseAt<T>(s: seq<T>, i: nat)
    requires i < |s|
    ensures Reverse(s)[i] == s[|s| - 1 - i]
  {
    if i < |s| - 1 {
      ReverseAt(s[1..], i);
    }
  }

  /** recentTransactions: the last five entries (fewer when the log is
      shorter), newest first. */
  function RecentTransactions(txs: seq<Transaction>): (r: seq<Transaction>)
    ensures |r| == if |txs| < 5 then |txs| else 5
    ensures forall i :: 0 <= i < |r| ==> r[i] == txs[|txs| - 1 - i]
  {
    var tail := if |txs| < 5 then txs else txs[|txs| - 5..];
    var r := Reverse(tail);
    assert forall i :: 0 <= i < |r| ==> r[i] == tail[|tail| - 1 - i] by {
      forall i | 0 <= i < |r| ensures r[i] == tail[|tail| - 1 - i] {
        ReverseAt(tail, i);
      }
    }
    r
  }

  /** The symbol of every record, in log order. */
  function Symbols(txs: seq<Transaction>): (r: seq<string>)
    ensures |r| == |txs| && forall k :: 0 <= k < |txs| ==> r[k] == txs[k].symbol
  {
    seq(|txs|, k requires 0 <= k < |txs| => txs[k].symbol)
  }

  lemma SymbolsSnoc(txs: seq<Transaction>)
    requires txs != []
    ensures Symbols(txs) == Symbols(txs[..|txs| - 1]) + [txs[|txs| - 1].symbol]
  {
  }

  /** Array.from(new Set(symbols)): each symbol once, in order of first use. */
  function DistinctSymbols(txs: seq<Transaction>): (r: seq<string>)
    ensures forall i, j :: 0 <= i < j < |r| ==> r[i] != r[j]
    ensures forall s :: s in r <==> s in Symbols(txs)
  {
    if txs == [] then []
    else
      SymbolsSnoc(txs);
      var init := DistinctSymbols(txs[..|txs| - 1]);
      var s := txs[|txs| - 1].symbol;
      if s in init then init else init + [s]
  }

  // ---------------------------------------------------------------------------
  // The portfolio fold

  datatype Holding = Holding(
    symbol: string, stockName: string, assetType: AssetType,
    quantity: real, totalCost: real, avgCost: real,
    currentPrice: real, currentValue: real, returnRate: real)

  /** realTimeStockPrices.get(symbol) || 0. */
  function LivePrice(live: map<string, real>, symbol: string): real {
    if symbol in live then live[symbol] else 0.0
  }

  /** The entry opened for a symbol's first transaction. */
  function Opened(t: Transaction, live: map<string, real>): Holding {
    Holding(t.symbol, t.stockName, t.assetType, 0.0, 0.0, 0.0, LivePrice(live, t.symbol), 0.0, 0.0)
  }

  /** One transaction applied to its symbol's entry: quantity and a cost
      recomputed as quantity * price + fee move up for a buy and down for a
      sell, and the derived figures are refreshed. */
  function Apply(h: Holding, t: Transaction, live: map<string, real>): Holding {
    var total := t.quantity * t.price + t.fee;
    var q := h.quantity + Signed(t, t.quantity);
    var cost := h.totalCost + Signed(t, total);
    var price := if t.symbol in live then live[t.symbol] else h.currentPrice;
    var value := q * price;
    h.(quantity := q, totalCost := cost,
       avgCost := if q > 0.0 then cost / q else 0.0,
       currentPrice := price, currentValue := value,
       returnRate := if cost > 0.0 then (value - cost) / cost * 100.0 else 0.0)
  }

  /** The fold's map: its keys in insertion order and the entry of each. */
  datatype Book = Book(order: seq<string>, items: map<string, Holding>)

  function Step(b: Book, t: Transaction, live: map<string, real>): Book {
    if t.symbol in b.items then Book(b.order, b.items[t.symbol := Apply(b.items[t.symbol], t, live)])
    else Book(b.order + [t.symbol], b.items[t.symbol := Apply(Opened(t, live), t, live)])
  }

  /** The forEach over the log, in log order. */
  function Fold(txs: seq<Transaction>, live: map<string, real>): Book {
    if txs == [] then Book([], map[]) else Step(Fold(txs[..|txs| - 1], live), txs[|txs| - 1], live)
  }

  /** Every order entry is a key, once, and every key is in the order. */
  predicate WellOrdered(b: Book) {
    && (forall i :: 0 <= i < |b.order| ==> b.order[i] in b.items)
    && (forall i, j :: 0 <= i < j < |b.order| ==> b.order[i] != b.order[j])
    && (forall s :: s in b.items ==> s in b.order)
    && (forall s :: s in b.items ==> b.items[s].symbol == s)
  }

  /** Array.from(stockMap.values()). */
  function Values(b: Book): (r: seq<Holding>)
    requires WellOrdered(b)
    ensures |r| == |b.order|
  {
    seq(|b.order|, i requires 0 <= i < |b.order| => b.items[b.order[i]])
  }

  /** .filter(stock => stock.quantity > 0) */
  function Positive(hs: seq<Holding>): (r: seq<Holding>)
    ensures forall h :: h in r <==> h in hs && h.quantity > 0.0
  {
    if hs == [] then []
    else (if hs[0].quantity > 0.0 then [hs[0]] else []) + Positive(hs[1..])
  }

  /** The comparator (a, b) => b.currentValue - a.currentValue allows a
      before b exactly when a is worth at least as much. */
  function ByValueDesc(): (Holding, Holding) -> bool {
    (a: Holding, b: Holding) => a.currentValue >= b.currentValue
  }

  function PortfolioSpec(txs: seq<Transaction>, live: map<string, real>): seq<Holding> {
    FoldWellOrdered(txs, live);
    SortBy(Positive(Values(Fold(txs, live))), ByValueDesc())
  }

  lemma {:induction false} FoldWellOrdered(txs: seq<Transaction>, live: map<string, real>)
    ensures WellOrdered(Fold(txs, live))
  {
    if txs != [] {
      FoldWellOrdered(txs[..|txs| - 1], live);
    }
  }

  /** The portfolio computation as the source runs it: fold, filter, sort. */
  method Portfolio(txs: seq<Transaction>, live: map<string, real>) returns (items: seq<Holding>)
    ensures items == PortfolioSpec(txs, live)
  {
    var order: seq<string> := [];
    var stockMap: map<string, Holding> := map[];
    for i := 0 to |txs|
      invariant Book(order, stockMap) == Fold(txs[..i], live)
    {
      assert txs[..i + 1][..i] == txs[..i];
      var t := txs[i];
      if t.symbol !in stockMap {
        stockMap := stockMap[t.symbol := Opened(t, live)];
        order := order + [t.symbol];
      }
      stockMap := stockMap[t.symbol := Apply(stockMap[t.symbol], t, live)];
    }
    assert txs[..|txs|] == txs;
    FoldWellOrdered(txs, live);
    var values := Values(Book(order, stockMap));
    var kept: seq<Holding> := [];
    var j := |values|;
    while j > 0
      invariant 0 <= j <= |values|
      invariant kept == Positive(values[j..])
    {
      j := j - 1;
      assert values[j..][1..] == values[j + 1..];
      if values[j].quantity > 0.0 {
        kept := [values[j]] + kept;
      }
    }
    items := SortBy(kept, ByValueDesc());
  }

  /** Σ quantity of buys minus Σ quantity of sells, for one symbol. */
  function NetQuantity(txs: seq<Transaction>, symbol: string): real {
    if txs == [] then 0.0
    else
      var t := txs[|txs| - 1];
      NetQuantity(txs[..|txs| - 1], symbol) + (if t.symbol == symbol then Signed(t, t.quantity) else 0.0)
  }

  /** Σ (quantity * price + fee), buys positive and sells negative, for one
      symbol: the cost recomputed from the fields, not the stored total. */
  function NetCost(txs: seq<Transaction>, symbol: string): real {
    if txs == [] then 0.0
    else
      var t := txs[|txs| - 1];
      NetCost(txs[..|txs| - 1], symbol) + (if t.symbol == symbol then Signed(t, t.quantity * t.price + t.fee) else 0.0)
  }

  lemma {:induction false} NetOfUntraded(txs: seq<Transaction>, symbol: string)
    requires symbol !in Symbols(txs)
    ensures NetQuantity(txs, symbol) == 0.0 && NetCost(txs, symbol) == 0.0
  {
    if txs != [] {
      SymbolsSnoc(txs);
      NetOfUntraded(txs[..|txs| - 1], symbol);
    }
  }

  /** The derived figures of an entry agree with its quantity and cost. */
  predicate Consistent(h: Holding, live: map<string, real>) {
    && h.avgCost == (if h.quantity > 0.0 then h.totalCost / h.quantity else 0.0)
    && h.currentPrice == LivePrice(live, h.symbol)
    && h.currentValue == h.quantity * h.currentPrice
    && h.returnRate == (if h.totalCost > 0.0 then (h.currentValue - h.totalCost) / h.totalCost * 100.0 else 0.0)
  }

  /** Applying a transaction moves quantity and cost by its signed amounts
      and leaves an entry whose derived figures agree with them. */
  lemma ApplyFacts(h: Holding, t: Transaction, live: map<string, real>)
    requires h.symbol == t.symbol && h.currentPrice == LivePrice(live, t.symbol)
    ensures var h' := Apply(h, t, live);
      && h'.symbol == h.symbol
      && h'.quantity == h.quantity + Signed(t, t.quantity)
      && h'.totalCost == h.totalCost + Signed(t, t.quantity * t.price + t.fee)
      && Consistent(h', live)
  {
  }

  /** The fold's step for a transaction of `symbol`: the entry it finds,
      or the one it opens, with the transaction applied. */
  lemma StepSame(b0: Book, t: Transaction, live: map<string, real>)
    ensures var h0 := if t.symbol in b0.items then b0.items[t.symbol] else Opened(t, live);
      var b := Step(b0, t, live);
      t.symbol in b.items && b.items[t.symbol] == Apply(h0, t, live)
  {
  }

  /** The fold's step leaves the other symbols' entries alone. */
  lemma StepOther(b0: Book, t: Transaction, live: map<string, real>, symbol: string)
    requires symbol != t.symbol
    ensures var b := Step(b0, t, live);
      (symbol in b.items <==> symbol in b0.items) && (symbol in b.items ==> b.items[symbol] == b0.items[symbol])
  {
  }

  /** Every key of the fold is a traded symbol, its entry carries the
      symbol and the live price (0 without one). */
  lemma {:induction false} FoldKeys(txs: seq<Transaction>, live: map<string, real>, symbol: string)
    ensures var b := Fold(txs, live);
      && (symbol in b.items <==> symbol in Symbols(txs))
      && (symbol in b.items ==>
            && b.items[symbol].symbol == symbol
            && b.items[symbol].currentPrice == LivePrice(live, symbol))
  {
    if txs != [] {
      var init := txs[..|txs| - 1];
      var t := txs[|txs| - 1];
      FoldKeys(init, live, symbol);
      SymbolsSnoc(txs);
      var b0 := Fold(init, live);
      if t.symbol == symbol {
        StepSame(b0, t, live);
        var h0 := if symbol in b0.items then b0.items[symbol] else Opened(t, live);
        ApplyFacts(h0, t, live);
      } else {
        StepOther(b0, t, live, symbol);
      }
    }
  }

  /** Every entry of the fold holds its symbol's net quantity and cost. */
  lemma {:induction false} FoldNet(txs: seq<Transaction>, live: map<string, real>, symbol: string)
    ensures var b := Fold(txs, live);
      symbol in b.items ==>
        && b.items[symbol].quantity == NetQuantity(txs, symbol)
        && b.items[symbol].totalCost == NetCost(txs, symbol)
  {
    if txs != [] {
      var init := txs[..|txs| - 1];
      var t := txs[|txs| - 1];
      FoldNet(init, live, symbol);
      FoldKeys(init, live, symbol);
      SymbolsSnoc(txs);
      var b0 := Fold(init, live);
      if t.symbol == symbol {
        StepSame(b0, t, live);
        var h0 := if symbol in b0.items then b0.items[symbol] else Opened(t, live);
        if symbol !in b0.items {
          NetOfUntraded(init, symbol);
        }
        ApplyFacts(h0, t, live);
      } else {
        StepOther(b0, t, live, symbol);
      }
    }
  }

  /** After the fold, each traded symbol has one entry whose quantity and
      cost are the symbol's net buys minus sells, and whose average cost,
      price, value and return rate follow from them. */
  lemma {:induction false} FoldPositions(txs: seq<Transaction>, live: map<string, real>, symbol: string)
    ensures var b := Fold(txs, live);
      && (symbol in b.items <==> symbol in Symbols(txs))
      && (symbol in b.items ==>
            && b.items[symbol].quantity == NetQuantity(txs, symbol)
            && b.items[symbol].totalCost == NetCost(txs, symbol)
            && Consistent(b.items[symbol], live))
  {
    FoldKeys(txs, live, symbol);
    FoldNet(txs, live, symbol);
    if txs != [] && symbol in Fold(txs, live).items {
      var init := txs[..|txs| - 1];
      var t := txs[|txs| - 1];
      var b0 := Fold(init, live);
      FoldKeys(init, live, symbol);
      if t.symbol == symbol {
        StepSame(b0, t, live);
        var h0 := if symbol in b0.items then b0.items[symbol] else Opened(t, live);
        ApplyFacts(h0, t, live);
      } else {
        StepOther(b0, t, live, symbol);
        FoldPositions(init, live, symbol);
      }
    }
  }

  lemma ByValueDescIsPreorder()
    ensures TotalPreorder(ByValueDesc())
  {
  }

  /** The fold's values are exactly its entries. */
  lemma ValuesMember(b: Book, h: Holding)
    requires WellOrdered(b)
    ensures h in Values(b) <==> h.symbol in b.items && b.items[h.symbol] == h
  {
    var v := Values(b);
    if h.symbol in b.items && b.items[h.symbol] == h {
      var i :| 0 <= i < |b.order| && b.order[i] == h.symbol;
      assert v[i] == h;
    }
  }

  /** The portfolio lists exactly the fold's entries with a positive
      quantity, each once, ordered from the largest current value down. */
  lemma PortfolioShape(txs: seq<Transaction>, live: map<string, real>)
    ensures var b := Fold(txs, live);
      var p := PortfolioSpec(txs, live);
      && WellOrdered(b)
      && Sorted(p, ByValueDesc())
      && multiset(p) == multiset(Positive(Values(b)))
      && (forall h :: h in p <==> h.symbol in b.items && b.items[h.symbol] == h && h.quantity > 0.0)
  {
    FoldWellOrdered(txs, live);
    var b := Fold(txs, live);
    var kept := Positive(Values(b));
    ByValueDescIsPreorder();
    SortCorrect(kept, ByValueDesc());
    var p := PortfolioSpec(txs, live);
    assert p == SortBy(kept, ByValueDesc());
    forall h ensures h in p <==> h.symbol in b.items && b.items[h.symbol] == h && h.quantity > 0.0 {
      calc {
        h in p;
        h in multiset(p);
        h in multiset(kept);
        h in kept;
      }
      ValuesMember(b, h);
    }
  }

  /** currentValue: the portfolio's values summed. */
  function CurrentValue(items: seq<Holding>): real {
    if items == [] then 0.0 else items[0].currentValue + CurrentValue(items[1..])
  }

  lemma {:induction false} CurrentValueRemove(items: seq<Holding>, i: nat)
    requires i < |items|
    ensures CurrentValue(items) == items[i].currentValue + CurrentValue(items[..i] + items[i + 1..])
  {
    if i > 0 {
      CurrentValueRemove(items[1..], i - 1);
      assert items[1..][..i - 1] + items[1..][i..] == (items[..i] + items[i + 1..])[1..];
    } else {
      assert items[..0] + items[1..] == items[1..];
    }
  }

  /** The total does not depend on the order of the entries, so sorting the
      portfolio leaves its current value as the fold computed it. */
  lemma {:induction false} CurrentValuePermutation(a: seq<Holding>, b: seq<Holding>)
    requires multiset(a) == multiset(b)
    ensures CurrentValue(a) == CurrentValue(b)
  {
    if a == [] {
      assert |b| == |multiset(b)| == 0;
    } else {
      var i := RemoveMatching(a, b, 0);
      assert a[..0] + a[1..] == a[1..];
      CurrentValuePermutation(a[1..], b[..i] + b[i + 1..]);
      CurrentValueRemove(b, i);
    }
  }

  lemma PortfolioValue(txs: seq<Transaction>, live: map<string, real>)
    ensures WellOrdered(Fold(txs, live))
    ensures CurrentValue(PortfolioSpec(txs, live)) == CurrentValue(Positive(Values(Fold(txs, live))))
  {
    PortfolioShape(txs, live);
    FoldWellOrdered(txs, live);
    CurrentValuePermutation(PortfolioSpec(txs, live), Positive(Values(Fold(txs, live))));
  }

  // ---------------------------------------------------------------------------
  // The ledger object

  /** What updateStockNames gives a transaction: the looked-up name, when
      there is a non-empty one. */
  function Renamed(t: Transaction, nameOf: string -> Option<string>): Transaction {
    match nameOf(t.symbol)
    case Some(n) => if n != "" then t.(stockName := n) else t
    case None => t
  }

  /** The log once the symbols in `done` have been visited by
      updateStockNames. */
  ghost predicate RenamedUpTo(before: seq<Transaction>, cur: seq<Transaction>, done: seq<string>, nameOf: string -> Option<string>) {
    |cur| == |before| &&
    forall k :: 0 <= k < |before| ==> cur[k] == if before[k].symbol in done then Renamed(before[k], nameOf) else before[k]
  }

  /** Visiting a new symbol with a name renames its records; the log is
      back to the original only if it was before and the visit changed
      nothing. */
  lemma RenameStep(before: seq<Transaction>, prev: seq<Transaction>, cur: seq<Transaction>, done: seq<string>, s: string,
                   nameOf: string -> Option<string>)
    requires RenamedUpTo(before, prev, done, nameOf) && s !in done
    requires nameOf(s).Some? && nameOf(s).value != ""
    requires |cur| == |prev|
    requires forall k :: 0 <= k < |cur| ==> cur[k] == if prev[k].symbol == s then prev[k].(stockName := nameOf(s).value) else prev[k]
    ensures RenamedUpTo(before, cur, done + [s], nameOf)
    ensures cur == before <==> prev == before && cur == prev
  {
    forall k | 0 <= k < |before|
      ensures cur[k] == if before[k].symbol in done + [s] then Renamed(before[k], nameOf) else before[k]
    {
      assert prev[k].symbol == before[k].symbol;
    }
    if prev != before {
      var k :| 0 <= k < |before| && prev[k] != before[k];
      assert prev[k].symbol == before[k].symbol;
      assert cur[k] != before[k];
    }
  }

  /** Visiting a symbol without a usable name changes nothing. */
  lemma SkipStep(before: seq<Transaction>, cur: seq<Transaction>, done: seq<string>, s: string, nameOf: string -> Option<string>)
    requires RenamedUpTo(before, cur, done, nameOf)
    requires nameOf(s).None? || nameOf(s).value == ""
    ensures RenamedUpTo(before, cur, done + [s], nameOf)
  {
  }

  /** The live prices after updateStockPrices has visited `symbols`: a
      quote is recorded only when it is positive. */
  function WithQuotes(prices: map<string, real>, symbols: seq<string>, quoteOf: string -> Option<real>): map<string, real> {
    if symbols == [] then prices
    else
      var m := WithQuotes(prices, symbols[..|symbols| - 1], quoteOf);
      var s := symbols[|symbols| - 1];
      if quoteOf(s).Some? && quoteOf(s).value > 0.0 then m[s := quoteOf(s).value] else m
  }

  /** Each visited symbol with a positive quote now has that price; every
      other price is as it was, so no zero or negative price is recorded. */
  lemma {:induction false} WithQuotesAt(prices: map<string, real>, symbols: seq<string>, quoteOf: string -> Option<real>, s: string)
    ensures var m := WithQuotes(prices, symbols, quoteOf);
      if s in symbols && quoteOf(s).Some? && quoteOf(s).value > 0.0
      then s in m && m[s] == quoteOf(s).value
      else (s in m <==> s in prices) && (s in m ==> m[s] == prices[s])
  {
    if symbols != [] {
      var init := symbols[..|symbols| - 1];
      WithQuotesAt(prices, init, quoteOf, s);
      assert symbols == init + [symbols[|symbols| - 1]];
    }
  }

  class Ledger {
    var transactions: seq<Transaction>
    var isLoaded: bool
    /** realTimeStockPrices */
    var livePrices: map<string, real>
    const local: LocalStorage
    const codec: LogCodec

    constructor (local: LocalStorage, codec: LogCodec)
      ensures transactions == [] && !isLoaded && livePrices == map[]
      ensures this.local == local && this.codec == codec
    {
      transactions := [];
      isLoaded := false;
      livePrices := map[];
      this.local := local;
      this.codec := codec;
    }

    /** loadTransactions: runs once; later calls change nothing. */
    method LoadTransactions()
      modifies this
      ensures isLoaded && livePrices == old(livePrices)
      ensures transactions == if old(isLoaded) then old(transactions)
                              else LoadedLog(old(transactions), Lookup(local.entries, TransactionsKey), codec)
    {
      if isLoaded {
        return;
      }
      var stored := local.GetItem(TransactionsKey);
      if stored.Some? && stored.value != "" {
        var items := codec.decode(stored.value);
        if items.None? {
          transactions := [];
        } else {
          transactions := Backfill(items.value);
        }
      }
      isLoaded := true;
    }

    method SaveTransactions()
      modifies local
      ensures local.entries == Put(old(local.entries), TransactionsKey, codec.encode(transactions))
    {
      local.SetItem(TransactionsKey, codec.encode(transactions));
    }

    /** addTransaction: the completed record, its id the current time in
        milliseconds, goes to the end of the log, which is saved. */
    method AddTransaction(input: TxInput, nowMillis: nat)
      modifies this, local
      ensures transactions == old(transactions) + [Complete(Text.Decimal(nowMillis), input)]
      ensures local.entries == Put(old(local.entries), TransactionsKey, codec.encode(transactions))
      ensures isLoaded == old(isLoaded) && livePrices == old(livePrices)
    {
      var t := Complete(Text.Decimal(nowMillis), input);
      transactions := transactions + [t];
      SaveTransactions();
    }

    /** deleteTransaction: the first record with the id is removed and the
        log saved; an unknown id changes nothing. */
    method DeleteTransaction(id: string)
      modifies this, local
      ensures match FirstIndexOf(old(transactions), id)
        case None => transactions == old(transactions) && local.entries == old(local.entries)
        case Some(k) =>
          && transactions == old(transactions)[..k] + old(transactions)[k + 1..]
          && local.entries == Put(old(local.entries), TransactionsKey, codec.encode(transactions))
      ensures isLoaded == old(isLoaded) && livePrices == old(livePrices)
    {
      var i := 0;
      while i < |transactions| && transactions[i].id != id
        invariant 0 <= i <= |transactions|
        invariant forall k :: 0 <= k < i ==> transactions[k].id != id
      {
        i := i + 1;
      }
      if i < |transactions| {
        transactions := transactions[..i] + transactions[i + 1..];
        SaveTransactions();
      }
    }

    /** The inner loop of updateStockNames: every record of `symbol` gets
        `name`; `changed` tells whether any record was different. */
    method RenameSymbol(symbol: string, name: string) returns (changed: bool)
      modifies this
      ensures |transactions| == |old(transactions)|
      ensures forall k :: 0 <= k < |transactions| ==>
        transactions[k] == if old(transactions)[k].symbol == symbol then old(transactions)[k].(stockName := name) else old(transactions)[k]
      ensures changed <==> transactions != old(transactions)
      ensures isLoaded == old(isLoaded) && livePrices == old(livePrices)
    {
      changed := false;
      ghost var w := 0;
      for i := 0 to |transactions|
        invariant |transactions| == |old(transactions)|
        invariant forall k :: 0 <= k < |transactions| ==>
          transactions[k] == if k < i && old(transactions)[k].symbol == symbol then old(transactions)[k].(stockName := name) else old(transactions)[k]
        invariant changed ==> 0 <= w < |transactions| && transactions[w] != old(transactions)[w]
        invariant !changed ==> transactions == old(transactions)
        invariant isLoaded == old(isLoaded) && livePrices == old(livePrices)
      {
        if transactions[i].symbol == symbol && transactions[i].stockName != name {
          transactions := transactions[i := transactions[i].(stockName := name)];
          changed := true;
          w := i;
        }
      }
    }

    /** updateStockNames: every record whose symbol has a name gets that
        name; the log is saved only if some name changed. */
    method UpdateStockNames(nameOf: string -> Option<string>)
      modifies this, local
      ensures |transactions| == |old(transactions)|
      ensures forall i :: 0 <= i < |transactions| ==> transactions[i] == Renamed(old(transactions)[i], nameOf)
      ensures local.entries == if transactions != old(transactions)
                               then Put(old(local.entries), TransactionsKey, codec.encode(transactions))
                               else old(local.entries)
      ensures isLoaded == old(isLoaded) && livePrices == old(livePrices)
    {
      var symbols := DistinctSymbols(transactions);
      ghost var before := transactions;
      var hasUpdates := false;
      for j := 0 to |symbols|
        modifies this
        invariant RenamedUpTo(before, transactions, symbols[..j], nameOf)
        invariant hasUpdates <==> transactions != before
        invariant isLoaded == old(isLoaded) && livePrices == old(livePrices)
      {
        ghost var prev := transactions;
        var name := nameOf(symbols[j]);
        assert symbols[j] !in symbols[..j];
        if name.Some? && name.value != "" {
          var changed := RenameSymbol(symbols[j], name.value);
          RenameStep(before, prev, transactions, symbols[..j], symbols[j], nameOf);
          hasUpdates := hasUpdates || changed;
        } else {
          SkipStep(before, transactions, symbols[..j], symbols[j], nameOf);
        }
      }
      assert symbols[..|symbols|] == symbols;
      forall i | 0 <= i < |transactions| ensures transactions[i] == Renamed(before[i], nameOf) {
        assert before[i].symbol in Symbols(before);
      }
      if hasUpdates {
        SaveTransactions();
      }
    }

    /** updateStockPrices: each traded symbol's quote is recorded when it
        is positive. */
    method UpdateStockPrices(quoteOf: string -> Option<real>)
      modifies this
      ensures livePrices == WithQuotes(old(livePrices), DistinctSymbols(transactions), quoteOf)
      ensures transactions == old(transactions) && isLoaded == old(isLoaded)
    {
      var symbols := DistinctSymbols(transactions);
      if |symbols| == 0 {
        return;
      }
      for j := 0 to |symbols|
        invariant livePrices == WithQuotes(old(livePrices), symbols[..j], quoteOf)
        invariant transactions == old(transactions) && isLoaded == old(isLoaded)
      {
        assert symbols[..j + 1][..j] == symbols[..j];
        var quote := quoteOf(symbols[j]);
        if quote.Some? && quote.value > 0.0 {
          livePrices := livePrices[symbols[j] := quote.value];
        }
      }
      assert symbols[..|symbols|] == symbols;
    }
  }

  /** Deleting by id removes one record, the first with that id, keeps the
      others in order, and takes its total out of the invested figure. */
  lemma DeleteRemovesFirst(txs: seq<Transaction>, id: string)
    requires FirstIndexOf(txs, id).Some?
    ensures var k := FirstIndexOf(txs, id).value;
      var r := txs[..k] + txs[k + 1..];
      && |r| == |txs| - 1
      && (forall i :: 0 <= i < k ==> r[i] == txs[i] && r[i].id != id)
      && (forall i :: k <= i < |r| ==> r[i] == txs[i + 1])
      && TotalInvestment(r) == TotalInvestment(txs) - Signed(txs[k], txs[k].total)
  {
    var k := FirstIndexOf(txs, id).value;
    RemoveAtShape(txs, k);
    TotalInvestmentRemove(txs, k);
  }
}
