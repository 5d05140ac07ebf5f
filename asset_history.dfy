/** The asset history of composables/useAssetHistory.ts: a list of dated
    snapshots of cash and invested cost, an initial setup, both persisted in
    localStorage, and the rebuild that replays the transaction log backwards
    from the current cash balance. Dates are ISO day strings (YYYY-MM-DD),
    compared as strings, which for such strings is the order of the days. */
module AssetHistory {
  import opened Wrappers
  import opened Storage
  import opened Sorting
  import opened Transactions
  import Text

  datatype Snapshot = Snapshot(date: string, cash: real, investment: real, total: real, note: Option<string>)

  datatype Setup = Setup(initialCash: real, startDate: string, isCompleted: bool)

  const BlankSetup := Setup(0.0, "", false)
  const HistoryKey: string := "asset_history"
  const SetupKey: string := "initial_setup"
  const LatestNote: string := "最新狀態"
  const StartNote: string := "起始點（反推得出）"

  /** The note of the snapshot taken after undoing a transaction. */
  function UndoNote(t: Transaction): string {
    "反推: " + (if t.kind.Buy? then "買入" else "賣出") + " " + t.symbol
  }

  /** A snapshot whose total is its cash plus its investment. */
  predicate Balanced(s: Snapshot) {
    s.total == s.cash + s.investment
  }

  /** JSON.stringify / JSON.parse of the two persisted values. */
  datatype HistoryCodec = HistoryCodec(
    encodeHistory: seq<Snapshot> -> string, decodeHistory: string -> Option<seq<Snapshot>>,
    encodeSetup: Setup -> string, decodeSetup: string -> Option<Setup>)

  ghost predicate LawfulHistoryCodec(c: HistoryCodec) {
    && (forall h :: c.encodeHistory(h) != "" && c.decodeHistory(c.encodeHistory(h)) == Some(h))
    && (forall s :: c.encodeSetup(s) != "" && c.decodeSetup(c.encodeSetup(s)) == Some(s))
  }

  // ---------------------------------------------------------------------------
  // Date orders

  function ByDateDesc(): (Transaction, Transaction) -> bool {
    (a: Transaction, b: Transaction) => Text.StrLe(b.date, a.date)
  }

  function ByDateAsc(): (Transaction, Transaction) -> bool {
    (a: Transaction, b: Transaction) => Text.StrLe(a.date, b.date)
  }

  function BySnapshotDate(): (Snapshot, Snapshot) -> bool {
    (a: Snapshot, b: Snapshot) => Text.StrLe(a.date, b.date)
  }

  lemma DateOrdersArePreorders()
    ensures TotalPreorder(ByDateDesc()) && TotalPreorder(ByDateAsc()) && TotalPreorder(BySnapshotDate())
  {
    forall a: string, b: string ensures Text.StrLe(a, b) || Text.StrLe(b, a) {
      Text.StrLeTotal(a, b);
    }
    forall a: string, b: string, c: string | Text.StrLe(a, b) && Text.StrLe(b, c) ensures Text.StrLe(a, c) {
      Text.StrLeTransitive(a, b, c);
    }
  }

  // ---------------------------------------------------------------------------
  // The holdings map of the rebuild

  datatype Position = Position(quantity: real, totalCost: real)

  /** A Map in insertion order. */
  datatype Holdings = Holdings(order: seq<string>, at: map<string, Position>)

  /** Map.set: a new key goes to the end, an existing one keeps its place. */
  function SetPosition(h: Holdings, symbol: string, p: Position): Holdings {
    if symbol in h.at then Holdings(h.order, h.at[symbol := p]) else Holdings(h.order + [symbol], h.at[symbol := p])
  }

  /** The holdings seeded from the portfolio: each item's quantity and cost. */
  function Seed(items: seq<Holding>): Holdings {
    if items == [] then Holdings([], map[])
    else
      var last := items[|items| - 1];
      SetPosition(Seed(items[..|items| - 1]), last.symbol, Position(last.quantity, last.totalCost))
  }

  /** The cost of the holdings at the first n keys that still have a
      positive quantity. */
  function InvestedUpTo(h: Holdings, n: nat): real
    requires n <= |h.order|
  {
    if n == 0 then 0.0
    else
      var s := h.order[n - 1];
      InvestedUpTo(h, n - 1) + (if s in h.at && h.at[s].quantity > 0.0 then h.at[s].totalCost else 0.0)
  }

  function Invested(h: Holdings): real {
    InvestedUpTo(h, |h.order|)
  }

  /** Non-negative quantity and cost: a negative quantity zeroes both, a
      negative cost alone is raised to zero. */
  function Clamp(p: Position): (r: Position)
    ensures r.quantity >= 0.0 && r.totalCost >= 0.0
    ensures p.quantity < 0.0 ==> r == Position(0.0, 0.0)
    ensures p.quantity >= 0.0 ==> r.quantity == p.quantity && r.totalCost == (if p.totalCost < 0.0 then 0.0 else p.totalCost)
  {
    var p1 := if p.quantity < 0.0 then Position(0.0, 0.0) else p;
    if p1.totalCost < 0.0 then p1.(totalCost := 0.0) else p1
  }

  /** Undoing a transaction on its symbol's holding: a buy is taken back
      out, a sell put back, and the result clamped. */
  function Undo(h: Holdings, t: Transaction): Holdings {
    var p := if t.symbol in h.at then h.at[t.symbol] else Position(0.0, 0.0);
    SetPosition(h, t.symbol, Clamp(Position(p.quantity - Signed(t, t.quantity), p.totalCost - Signed(t, t.total))))
  }

  /** After an undo the touched holding is non-negative; every other holding
      is as it was. */
  lemma UndoClamps(h: Holdings, t: Transaction, s: string)
    ensures var h' := Undo(h, t);
      var p := if t.symbol in h.at then h.at[t.symbol] else Position(0.0, 0.0);
      && t.symbol in h'.at
      && h'.at[t.symbol].quantity >= 0.0 && h'.at[t.symbol].totalCost >= 0.0
      && (p.quantity - Signed(t, t.quantity) < 0.0 ==> h'.at[t.symbol] == Position(0.0, 0.0))
      && (p.quantity - Signed(t, t.quantity) >= 0.0 ==> h'.at[t.symbol].quantity == p.quantity - Signed(t, t.quantity))
      && (s != t.symbol ==> (s in h'.at <==> s in h.at) && (s in h.at ==> h'.at[s] == h.at[s]))
  {
  }

  // ---------------------------------------------------------------------------
  // The backward replay

  datatype Replay = Replay(cash: real, holdings: Holdings, snapshots: seq<Snapshot>)

  /** The replay of the log, newest first, from a starting state: each
      transaction is undone on the cash and on its holding, and a snapshot
      of the state before it is recorded under its date. */
  function Rewind(start: Replay, txs: seq<Transaction>): Replay {
    if txs == [] then start
    else
      var r := Rewind(start, txs[..|txs| - 1]);
      var t := txs[|txs| - 1];
      var cash := r.cash + Signed(t, t.total);
      var h := Undo(r.holdings, t);
      var inv := Invested(h);
      Replay(cash, h, r.snapshots + [Snapshot(t.date, cash, inv, cash + inv, Some(UndoNote(t)))])
  }

  /** The snapshots of a rebuild, before the final sort: the latest state,
      one per undone transaction, and the start point when there was any. */
  function RebuildSnapshots(setup: Setup, sorted: seq<Transaction>, today: string): seq<Snapshot> {
    FromSeed(setup, sorted, today, Seed(PortfolioSpec(sorted, map[])))
  }

  /** The latest snapshot from the seeded holdings, the replay of the log
      and, when there is one, the start point. */
  function FromSeed(setup: Setup, sorted: seq<Transaction>, today: string, seed: Holdings): seq<Snapshot> {
    var inv := Invested(seed);
    var latest := Snapshot(today, setup.initialCash, inv, setup.initialCash + inv, Some(LatestNote));
    var r := Rewind(Replay(setup.initialCash, seed, [latest]), sorted);
    r.snapshots + (if |sorted| > 0 then [Snapshot(setup.startDate, r.cash, 0.0, r.cash, Some(StartNote))] else [])
  }

  /** The rebuilt history: the snapshots sorted oldest first. */
  function Rebuilt(setup: Setup, log: seq<Transaction>, today: string): seq<Snapshot> {
    SortBy(RebuildSnapshots(setup, SortBy(log, ByDateDesc()), today), BySnapshotDate())
  }

  lemma {:induction false} RewindFacts(start: Replay, txs: seq<Transaction>)
    ensures var r := Rewind(start, txs);
      && |r.snapshots| == |start.snapshots| + |txs|
      && r.snapshots[..|start.snapshots|] == start.snapshots
      && r.cash == start.cash + TotalInvestment(txs)
      && (forall i :: 0 <= i < |txs| ==> r.snapshots[|start.snapshots| + i].date == txs[i].date)
      && (forall i :: |start.snapshots| <= i < |r.snapshots| ==> Balanced(r.snapshots[i]))
  {
    if txs != [] {
      var init := txs[..|txs| - 1];
      RewindFacts(start, init);
      var r0 := Rewind(start, init);
      var r := Rewind(start, txs);
      assert r.snapshots == r0.snapshots + [r.snapshots[|r.snapshots| - 1]];
      forall i | 0 <= i < |txs| ensures r.snapshots[|start.snapshots| + i].date == txs[i].date {
        if i < |init| {
          assert r.snapshots[|start.snapshots| + i] == r0.snapshots[|start.snapshots| + i];
        }
      }
    }
  }

  /** The snapshots of a replay over a log in any order: the latest one,
      one per transaction under its date, then the start point; all
      balanced. */
  lemma FromSeedShape(setup: Setup, sorted: seq<Transaction>, today: string, seed: Holdings)
    ensures var snaps := FromSeed(setup, sorted, today, seed);
      && |snaps| == 1 + |sorted| + (if |sorted| > 0 then 1 else 0)
      && snaps[0].date == today && snaps[0].cash == setup.initialCash
      && (forall i :: 0 <= i < |sorted| ==> snaps[1 + i].date == sorted[i].date)
      && (forall s :: s in snaps ==> Balanced(s))
      && (|sorted| > 0 ==> snaps[|snaps| - 1] == Snapshot(setup.startDate, setup.initialCash + TotalInvestment(sorted), 0.0, setup.initialCash + TotalInvestment(sorted), Some(StartNote)))
  {
    var inv := Invested(seed);
    var latest := Snapshot(today, setup.initialCash, inv, setup.initialCash + inv, Some(LatestNote));
    var start := Replay(setup.initialCash, seed, [latest]);
    RewindFacts(start, sorted);
    var r := Rewind(start, sorted);
    var snaps := FromSeed(setup, sorted, today, seed);
    assert snaps == r.snapshots + (if |sorted| > 0 then [Snapshot(setup.startDate, r.cash, 0.0, r.cash, Some(StartNote))] else []);
    assert r.snapshots[0] == latest by {
      assert r.snapshots[..1] == [latest];
    }
    forall s | s in snaps ensures Balanced(s) {
      var i :| 0 <= i < |snaps| && snaps[i] == s;
      if 0 < i < |r.snapshots| {
        assert snaps[i] == r.snapshots[i];
      }
    }
  }

  /** A rebuild over n transactions yields the latest snapshot, one per
      transaction and, when n > 0, a start point; every snapshot's total is
      its cash plus its investment, and the start point holds the current
      cash with every buy added back and every sell taken out, and nothing
      invested. */
  lemma RebuildShape(setup: Setup, log: seq<Transaction>, today: string)
    ensures var sorted := SortBy(log, ByDateDesc());
      var snaps := RebuildSnapshots(setup, sorted, today);
      && |snaps| == 1 + |log| + (if |log| > 0 then 1 else 0)
      && snaps[0].date == today && snaps[0].cash == setup.initialCash
      && (forall i :: 0 <= i < |log| ==> snaps[1 + i].date == sorted[i].date)
      && (forall s :: s in snaps ==> Balanced(s))
      && (|log| > 0 ==> snaps[|snaps| - 1] == Snapshot(setup.startDate, setup.initialCash + TotalInvestment(log), 0.0, setup.initialCash + TotalInvestment(log), Some(StartNote)))
  {
    var sorted := SortBy(log, ByDateDesc());
    assert TotalInvestment(sorted) == TotalInvestment(log) by {
      SortPermutes(log, ByDateDesc());
      TotalInvestmentPermutation(sorted, log);
    }
    FromSeedShape(setup, sorted, today, Seed(PortfolioSpec(sorted, map[])));
  }

  /** The persisted history is ordered oldest first and holds exactly the
      rebuilt snapshots, each a balanced one. */
  lemma RebuiltOrdered(setup: Setup, log: seq<Transaction>, today: string)
    ensures var h := Rebuilt(setup, log, today);
      && Sorted(h, BySnapshotDate())
      && multiset(h) == multiset(RebuildSnapshots(setup, SortBy(log, ByDateDesc()), today))
      && |h| == 1 + |log| + (if |log| > 0 then 1 else 0)
      && (forall s :: s in h ==> Balanced(s))
  {
    DateOrdersArePreorders();
    var snaps := RebuildSnapshots(setup, SortBy(log, ByDateDesc()), today);
    SortCorrect(snaps, BySnapshotDate());
    RebuildShape(setup, log, today);
    var h := Rebuilt(setup, log, today);
    forall s | s in h ensures Balanced(s) {
      assert s in multiset(h);
    }
  }

  /** The rebuild's side effect on the shared log: it is reordered newest
      first, and nothing is added or lost. */
  lemma LogReordered(log: seq<Transaction>)
    ensures Sorted(SortBy(log, ByDateDesc()), ByDateDesc())
    ensures multiset(SortBy(log, ByDateDesc())) == multiset(log)
    ensures TotalInvestment(SortBy(log, ByDateDesc())) == TotalInvestment(log)
  {
    DateOrdersArePreorders();
    SortCorrect(log, ByDateDesc());
    TotalInvestmentPermutation(SortBy(log, ByDateDesc()), log);
  }

  // ---------------------------------------------------------------------------
  // Per-symbol history

  datatype StockPoint = StockPoint(date: string, quantity: real, totalCost: real)

  /** A transaction's quantity, signed, when it is of `symbol` and dated no
      later than `day`. */
  function QuantityUpTo(symbol: string, day: string): Transaction -> real {
    (t: Transaction) => if t.symbol == symbol && Text.StrLe(t.date, day) then Signed(t, t.quantity) else 0.0
  }

  function CostUpTo(symbol: string, day: string): Transaction -> real {
    (t: Transaction) => if t.symbol == symbol && Text.StrLe(t.date, day) then Signed(t, t.total) else 0.0
  }

  /** The holding of `symbol` on `day`: its buys minus sells up to that
      day, reset to nothing when the quantity is negative. */
  function HeldOn(txs: seq<Transaction>, symbol: string, day: string): (p: StockPoint)
    ensures p.date == day && p.quantity >= 0.0
  {
    var q := SumOf(txs, QuantityUpTo(symbol, day));
    var c := SumOf(txs, CostUpTo(symbol, day));
    if q < 0.0 then StockPoint(day, 0.0, 0.0) else StockPoint(day, q, c)
  }

  function StockHistorySpec(setup: Setup, history: seq<Snapshot>, txs: seq<Transaction>, symbol: string): seq<StockPoint> {
    if !setup.isCompleted then []
    else seq(|history|, i requires 0 <= i < |history| => HeldOn(txs, symbol, history[i].date))
  }

  /** The transactions of one symbol, in log order. */
  function OfSymbol(txs: seq<Transaction>, symbol: string): (r: seq<Transaction>)
    ensures forall t :: t in r <==> t in txs && t.symbol == symbol
  {
    if txs == [] then []
    else OfSymbol(txs[..|txs| - 1], symbol) + (if txs[|txs| - 1].symbol == symbol then [txs[|txs| - 1]] else [])
  }

  lemma {:induction false} OfSymbolSum(txs: seq<Transaction>, symbol: string, f: Transaction -> real)
    requires forall t: Transaction :: t.symbol != symbol ==> f(t) == 0.0
    ensures SumOf(OfSymbol(txs, symbol), f) == SumOf(txs, f)
  {
    if txs != [] {
      var init := txs[..|txs| - 1];
      var t := txs[|txs| - 1];
      OfSymbolSum(init, symbol, f);
      if t.symbol == symbol {
        SumOfConcat(OfSymbol(init, symbol), [t], f);
        assert SumOf([t], f) == f(t) by {
          assert [t][..0] == [];
        }
      } else {
        assert OfSymbol(txs, symbol) == OfSymbol(init, symbol);
      }
    }
  }

  /** On a day no earlier than any of the symbol's transactions, the
      per-symbol history agrees with the portfolio's net quantity. */
  lemma {:induction false} HeldOnAfterAll(txs: seq<Transaction>, symbol: string, day: string)
    requires forall t :: t in txs && t.symbol == symbol ==> Text.StrLe(t.date, day)
    ensures SumOf(txs, QuantityUpTo(symbol, day)) == NetQuantity(txs, symbol)
  {
    if txs != [] {
      HeldOnAfterAll(txs[..|txs| - 1], symbol, day);
    }
  }

  // ---------------------------------------------------------------------------
  // Derived views

  datatype TrendPoint = TrendPoint(date: string, cash: real, investment: real, total: real,
                                   cashPercentage: real, investmentPercentage: real)

  /** assetTrend: each snapshot with the shares of cash and investment in
      its total, 0 when the total is not positive. */
  function AssetTrend(history: seq<Snapshot>): (r: seq<TrendPoint>)
    ensures |r| == |history|
    ensures forall i :: 0 <= i < |r| ==>
      && r[i].date == history[i].date && r[i].cash == history[i].cash
      && r[i].investment == history[i].investment && r[i].total == history[i].total
      && (history[i].total <= 0.0 ==> r[i].cashPercentage == 0.0 && r[i].investmentPercentage == 0.0)
      && (history[i].total > 0.0 ==>
            && r[i].cashPercentage * history[i].total == history[i].cash * 100.0
            && r[i].investmentPercentage * history[i].total == history[i].investment * 100.0)
  {
    seq(|history|, i requires 0 <= i < |history| =>
      var s := history[i];
      TrendPoint(s.date, s.cash, s.investment, s.total,
                 if s.total > 0.0 then s.cash / s.total * 100.0 else 0.0,
                 if s.total > 0.0 then s.investment / s.total * 100.0 else 0.0))
  }

  /** For a balanced snapshot with a positive total the two shares make up
      the whole. */
  lemma TrendSharesSum(history: seq<Snapshot>, i: nat)
    requires i < |history| && Balanced(history[i]) && history[i].total > 0.0
    ensures AssetTrend(history)[i].cashPercentage + AssetTrend(history)[i].investmentPercentage == 100.0
  {
    var r := AssetTrend(history)[i];
    var s := history[i];
    var x := r.cashPercentage + r.investmentPercentage;
    assert x * s.total == (s.cash + s.investment) * 100.0;
    assert (x - 100.0) * s.total == 0.0;
  }

  /** currentAssets: the last snapshot, if any. */
  function CurrentAssets(history: seq<Snapshot>): (r: Option<Snapshot>)
    ensures history == [] <==> r.None?
    ensures r.Some? ==> r.value == history[|history| - 1]
  {
    if history == [] then None else Some(history[|history| - 1])
  }

  /** Math.min over the totals, 0 for no snapshots. */
  function MinTotal(history: seq<Snapshot>): (r: real)
    ensures history == [] ==> r == 0.0
    ensures history != [] ==> (exists i :: 0 <= i < |history| && history[i].total == r)
    ensures forall i :: 0 <= i < |history| ==> r <= history[i].total
  {
    if history == [] then 0.0
    else if |history| == 1 then history[0].total
    else
      var m := MinTotal(history[1..]);
      assert forall i :: 1 <= i < |history| ==> history[i] == history[1..][i - 1];
      if history[0].total <= m then history[0].total else m
  }

  /** Math.max over the totals, 0 for no snapshots. */
  function MaxTotal(history: seq<Snapshot>): (r: real)
    ensures history == [] ==> r == 0.0
    ensures history != [] ==> (exists i :: 0 <= i < |history| && history[i].total == r)
    ensures forall i :: 0 <= i < |history| ==> history[i].total <= r
  {
    if history == [] then 0.0
    else if |history| == 1 then history[0].total
    else
      var m := MaxTotal(history[1..]);
      assert forall i :: 1 <= i < |history| ==> history[i] == history[1..][i - 1];
      if history[0].total >= m then history[0].total else m
  }

  // ---------------------------------------------------------------------------
  // The history object

  class AssetTracker {
    var history: seq<Snapshot>
    var setup: Setup
    const local: LocalStorage
    const codec: HistoryCodec

    constructor (local: LocalStorage, codec: HistoryCodec)
      ensures history == [] && setup == BlankSetup
      ensures this.local == local && this.codec == codec
    {
      history := [];
      setup := BlankSetup;
      this.local := local;
      this.codec := codec;
    }

    /** loadAssetHistory: a stored history, then a stored setup, replace the
        in-memory ones; an unreadable history stops the load before the
        setup is read. */
    method LoadAssetHistory()
      modifies this
      ensures var h := Lookup(local.entries, HistoryKey);
        var s := Lookup(local.entries, SetupKey);
        var hOk := h.None? || h.value == "" || codec.decodeHistory(h.value).Some?;
        && history == (if h.Some? && h.value != "" && hOk then codec.decodeHistory(h.value).value else old(history))
        && setup == (if hOk && s.Some? && s.value != "" && codec.decodeSetup(s.value).Some? then codec.decodeSetup(s.value).value else old(setup))
    {
      var stored := local.GetItem(HistoryKey);
      if stored.Some? && stored.value != "" {
        var parsed := codec.decodeHistory(stored.value);
        if parsed.None? {
          return;
        }
        history := parsed.value;
      }
      var saved := local.GetItem(SetupKey);
      if saved.Some? && saved.value != "" {
        var parsed := codec.decodeSetup(saved.value);
        if parsed.Some? {
          setup := parsed.value;
        }
      }
    }

    method SaveAssetHistory()
      modifies local
      ensures local.entries == Put(old(local.entries), HistoryKey, codec.encodeHistory(history))
    {
      local.SetItem(HistoryKey, codec.encodeHistory(history));
    }

    /** completeInitialSetup: the setup is completed and the history is the
        single starting snapshot, all cash; both are persisted. */
    method CompleteInitialSetup(cash: real, startDate: string)
      modifies this, local
      ensures setup == Setup(cash, startDate, true)
      ensures history == [Snapshot(startDate, cash, 0.0, cash, None)]
      ensures local.entries == Put(Put(old(local.entries), HistoryKey, codec.encodeHistory(history)), SetupKey, codec.encodeSetup(setup))
    {
      setup := Setup(cash, startDate, true);
      history := [Snapshot(startDate, cash, 0.0, cash, None)];
      SaveAssetHistory();
      local.SetItem(SetupKey, codec.encodeSetup(setup));
    }

    /** addAssetSnapshot: one balanced snapshot dated today goes to the end. */
    method AddAssetSnapshot(cash: real, investment: real, note: Option<string>, today: string)
      modifies this, local
      ensures history == old(history) + [Snapshot(today, cash, investment, cash + investment, note)]
      ensures setup == old(setup)
      ensures local.entries == Put(old(local.entries), HistoryKey, codec.encodeHistory(history))
    {
      history := history + [Snapshot(today, cash, investment, cash + investment, note)];
      SaveAssetHistory();
    }

    /** updateCashBalance: only the latest snapshot changes, its cash set and
        its total recomputed; an empty history is left alone, unsaved. */
    method UpdateCashBalance(newCash: real)
      modifies this, local
      ensures setup == old(setup)
      ensures old(history) == [] ==> history == [] && local.entries == old(local.entries)
      ensures old(history) != [] ==>
        var last := old(history)[|old(history)| - 1];
        && history == old(history)[..|old(history)| - 1] + [last.(cash := newCash, total := newCash + last.investment)]
        && local.entries == Put(old(local.entries), HistoryKey, codec.encodeHistory(history))
    {
      if |history| == 0 {
        return;
      }
      var last := history[|history| - 1];
      history := history[..|history| - 1] + [last.(cash := newCash, total := newCash + last.investment)];
      SaveAssetHistory();
    }

    /** resetInitialSetup: back to the blank setup and an empty history,
        both removed from storage. */
    method ResetInitialSetup()
      modifies this, local
      ensures setup == BlankSetup && history == []
      ensures local.entries == Delete(Delete(old(local.entries), SetupKey), HistoryKey)
    {
      setup := BlankSetup;
      history := [];
      local.RemoveItem(SetupKey);
      local.RemoveItem(HistoryKey);
    }

    /** The total cost of the holdings that still have a positive quantity. */
    static method SumInvested(h: Holdings) returns (sum: real)
      ensures sum == Invested(h)
    {
      sum := 0.0;
      for i := 0 to |h.order|
        invariant sum == InvestedUpTo(h, i)
      {
        var s := h.order[i];
        if s in h.at && h.at[s].quantity > 0.0 {
          sum := sum + h.at[s].totalCost;
        }
      }
    }

    /** The forEach that seeds the holdings from the portfolio. */
    static method SeedHoldings(items: seq<Holding>) returns (holdings: Holdings)
      ensures holdings == Seed(items)
    {
      holdings := Holdings([], map[]);
      for i := 0 to |items|
        invariant holdings == Seed(items[..i])
      {
        assert items[..i + 1][..i] == items[..i];
        holdings := SetPosition(holdings, items[i].symbol, Position(items[i].quantity, items[i].totalCost));
      }
      assert items[..|items|] == items;
    }

    /** One transaction undone on the holdings map, as the loop body does it. */
    static method UndoHolding(holdings0: Holdings, t: Transaction) returns (holdings: Holdings)
      ensures holdings == Undo(holdings0, t)
    {
      holdings := holdings0;
      if t.symbol !in holdings.at {
        holdings := SetPosition(holdings, t.symbol, Position(0.0, 0.0));
      }
      var p := holdings.at[t.symbol];
      if t.kind.Buy? {
        p := Position(p.quantity - t.quantity, p.totalCost - t.total);
      } else {
        p := Position(p.quantity + t.quantity, p.totalCost + t.total);
      }
      if p.quantity < 0.0 {
        p := Position(0.0, 0.0);
      }
      if p.totalCost < 0.0 {
        p := p.(totalCost := 0.0);
      }
      holdings := SetPosition(holdings, t.symbol, p);
    }

    /** The loop over the log, newest first. */
    static method RunReplay(start: Replay, sorted: seq<Transaction>) returns (r: Replay)
      ensures r == Rewind(start, sorted)
    {
      var cash := start.cash;
      var holdings := start.holdings;
      var newHistory := start.snapshots;
      for i := 0 to |sorted|
        invariant Replay(cash, holdings, newHistory) == Rewind(start, sorted[..i])
      {
        assert sorted[..i + 1][..i] == sorted[..i];
        var t := sorted[i];
        if t.kind.Buy? {
          cash := cash + t.total;
        } else {
          cash := cash - t.total;
        }
        holdings := UndoHolding(holdings, t);
        var pastInvestment := SumInvested(holdings);
        newHistory := newHistory + [Snapshot(t.date, cash, pastInvestment, cash + pastInvestment, Some(UndoNote(t)))];
      }
      assert sorted[..|sorted|] == sorted;
      r := Replay(cash, holdings, newHistory);
    }

    /** The snapshots of a rebuild, before the final sort. */
    static method Snapshots(setup: Setup, sorted: seq<Transaction>, today: string) returns (snaps: seq<Snapshot>)
      ensures snaps == RebuildSnapshots(setup, sorted, today)
    {
      var items := Portfolio(sorted, map[]);
      var holdings := SeedHoldings(items);
      snaps := ReplayFrom(setup, sorted, today, holdings);
    }

    static method ReplayFrom(setup: Setup, sorted: seq<Transaction>, today: string, holdings: Holdings) returns (snaps: seq<Snapshot>)
      ensures snaps == FromSeed(setup, sorted, today, holdings)
    {
      var cash := setup.initialCash;
      var investment := SumInvested(holdings);
      var latest := Snapshot(today, cash, investment, cash + investment, Some(LatestNote));
      var r := RunReplay(Replay(cash, holdings, [latest]), sorted);
      snaps := r.snapshots;
      if |sorted| > 0 {
        snaps := snaps + [Snapshot(setup.startDate, r.cash, 0.0, r.cash, Some(StartNote))];
      }
    }

    /** rebuildAssetHistory: with the setup completed, the shared log is
        sorted newest first in place and the history replaced by the
        rebuilt one, which is persisted; otherwise nothing happens. */
    method RebuildAssetHistory(ledger: Ledger, today: string)
      modifies this, local, ledger
      ensures setup == old(setup)
      ensures !old(setup.isCompleted) ==>
        history == old(history) && local.entries == old(local.entries) && ledger.transactions == old(ledger.transactions)
      ensures old(setup.isCompleted) ==>
        && ledger.transactions == SortBy(old(ledger.transactions), ByDateDesc())
        && history == Rebuilt(setup, old(ledger.transactions), today)
        && local.entries == Put(old(local.entries), HistoryKey, codec.encodeHistory(history))
      ensures ledger.livePrices == old(ledger.livePrices) && ledger.isLoaded == old(ledger.isLoaded)
    {
      if !setup.isCompleted {
        return;
      }
      ledger.transactions := SortBy(ledger.transactions, ByDateDesc());
      var newHistory := Snapshots(setup, ledger.transactions, today);
      history := SortBy(newHistory, BySnapshotDate());
      SaveAssetHistory();
    }

    /** The inner loop of getStockHistory: the signed quantities and totals
        of the transactions dated no later than `day`. */
    static method SumUpTo(mine: seq<Transaction>, symbol: string, day: string) returns (quantity: real, cost: real)
      requires forall t :: t in mine ==> t.symbol == symbol
      ensures quantity == SumOf(mine, QuantityUpTo(symbol, day))
      ensures cost == SumOf(mine, CostUpTo(symbol, day))
    {
      quantity := 0.0;
      cost := 0.0;
      for j := 0 to |mine|
        invariant quantity == SumOf(mine[..j], QuantityUpTo(symbol, day))
        invariant cost == SumOf(mine[..j], CostUpTo(symbol, day))
      {
        assert mine[..j + 1][..j] == mine[..j];
        var t := mine[j];
        if Text.StrLe(t.date, day) {
          if t.kind.Buy? {
            quantity := quantity + t.quantity;
            cost := cost + t.total;
          } else {
            quantity := quantity - t.quantity;
            cost := cost - t.total;
          }
        }
      }
      assert mine[..|mine|] == mine;
    }

    /** One entry of getStockHistory, computed from the symbol's
        transactions in date order. */
    static method PointOn(mine: seq<Transaction>, txs: seq<Transaction>, symbol: string, day: string) returns (p: StockPoint)
      requires multiset(mine) == multiset(OfSymbol(txs, symbol))
      ensures p == HeldOn(txs, symbol, day)
    {
      assert forall t :: t in mine ==> t.symbol == symbol by {
        forall t | t in mine ensures t.symbol == symbol {
          assert t in multiset(mine);
        }
      }
      var quantity, cost := SumUpTo(mine, symbol, day);
      SumOfPermutation(mine, OfSymbol(txs, symbol), QuantityUpTo(symbol, day));
      SumOfPermutation(mine, OfSymbol(txs, symbol), CostUpTo(symbol, day));
      OfSymbolSum(txs, symbol, QuantityUpTo(symbol, day));
      OfSymbolSum(txs, symbol, CostUpTo(symbol, day));
      if quantity < 0.0 {
        quantity := 0.0;
        cost := 0.0;
      }
      p := StockPoint(day, quantity, cost);
    }

    /** getStockHistory: for each snapshot, the holding of `symbol` built
        from its transactions up to the snapshot's date; nothing before the
        setup is completed. */
    method GetStockHistory(txs: seq<Transaction>, symbol: string) returns (points: seq<StockPoint>)
      ensures points == StockHistorySpec(setup, history, txs, symbol)
    {
      if !setup.isCompleted {
        return [];
      }
      var mine := SortBy(OfSymbol(txs, symbol), ByDateAsc());
      SortPermutes(OfSymbol(txs, symbol), ByDateAsc());
      points := [];
      for i := 0 to |history|
        invariant |points| == i
        invariant forall k :: 0 <= k < i ==> points[k] == HeldOn(txs, symbol, history[k].date)
      {
        var p := PointOn(mine, txs, symbol, history[i].date);
        points := points + [p];
      }
    }
  }
}
