/** The stock-list endpoint of server/api/stock-list.ts: a module-level list
    cached for 24 hours; on a miss the listed and OTC company lists are
    fetched, normalised, filtered to entries whose symbol starts with a
    digit, sorted by symbol and cached; when the handler fails outright a
    non-empty cache, however old, is served instead. The upstream answers,
    the clock and an outright failure are inputs. */
module StockListApi {
  import opened Wrappers
  import opened Sorting
  import Text

  /** 24 * 60 * 60 * 1000 milliseconds. */
  const CacheDuration: int := 86400000
  const DefaultIndustry: string := "其他"
  const DefaultType: string := "stock"
  const StaleWarning: string := "使用過期快取資料"
  const UnknownError: string := "未知錯誤"

  datatype Market = TWSE | OTC

  /** An upstream row; the empty string stands for a missing or empty field. */
  datatype RawStock = RawStock(stockId: string, stockName: string, industryCategory: string, kind: string)

  /** An upstream list query: thrown, non-OK, or OK with a `data` array or
      without one. */
  datatype ListFetch = Threw | NotOk | Ok(data: Option<seq<RawStock>>)

  datatype Entry = Entry(symbol: string, name: string, market: Market, industry: string, kind: string)

  datatype Source = FromCache | FromApi | CacheFallback

  datatype Reply =
    | ListReply(data: seq<Entry>, source: Source, count: nat, lastUpdated: Option<string>, warning: Option<string>)
    | ListError(status: int, message: string)

  /** The row mapped to an entry of the given market, with the defaults for
      a missing industry and type. */
  function Normalize(r: RawStock, market: Market): (e: Entry)
    ensures e.symbol == r.stockId && e.name == r.stockName && e.market == market
    ensures e.industry == (if r.industryCategory == "" then DefaultIndustry else r.industryCategory)
    ensures e.kind == (if r.kind == "" then DefaultType else r.kind)
  {
    Entry(r.stockId, r.stockName, market,
          if r.industryCategory != "" then r.industryCategory else DefaultIndustry,
          if r.kind != "" then r.kind else DefaultType)
  }

  /** The entries one upstream list contributes. */
  function FromFetch(f: ListFetch, market: Market): (es: seq<Entry>)
    ensures f.Ok? && f.data.Some? ==> |es| == |f.data.value| && forall i :: 0 <= i < |es| ==> es[i] == Normalize(f.data.value[i], market)
    ensures !(f.Ok? && f.data.Some?) ==> es == []
  {
    if f.Ok? && f.data.Some? then
      seq(|f.data.value|, i requires 0 <= i < |f.data.value| => Normalize(f.data.value[i], market))
    else []
  }

  /** A non-empty symbol that starts with a digit, and a non-empty name. */
  predicate Keep(e: Entry) {
    e.symbol != "" && e.name != "" && Text.IsDigit(e.symbol[0])
  }

  function Valid(es: seq<Entry>): (r: seq<Entry>)
    ensures forall e :: e in r <==> e in es && Keep(e)
  {
    if es == [] then []
    else Valid(es[..|es| - 1]) + (if Keep(es[|es| - 1]) then [es[|es| - 1]] else [])
  }

  /** The filter drops no copy of an entry it keeps. */
  lemma {:induction false} ValidCounts(es: seq<Entry>)
    ensures forall e :: multiset(Valid(es))[e] == if Keep(e) then multiset(es)[e] else 0
  {
    if es != [] {
      ValidCounts(es[..|es| - 1]);
      assert es == es[..|es| - 1] + [es[|es| - 1]];
    }
  }

  /** a.symbol.localeCompare(b.symbol) <= 0, taken as code-point order. */
  function BySymbol(): (Entry, Entry) -> bool {
    (a: Entry, b: Entry) => Text.StrLe(a.symbol, b.symbol)
  }

  lemma BySymbolIsPreorder()
    ensures TotalPreorder(BySymbol())
  {
    forall a: string, b: string ensures Text.StrLe(a, b) || Text.StrLe(b, a) {
      Text.StrLeTotal(a, b);
    }
    forall a: string, b: string, c: string | Text.StrLe(a, b) && Text.StrLe(b, c) ensures Text.StrLe(a, c) {
      Text.StrLeTransitive(a, b, c);
    }
  }

  /** The list built on a cache miss. */
  function Listing(tse: ListFetch, otc: ListFetch): seq<Entry> {
    SortBy(Valid(FromFetch(tse, TWSE) + FromFetch(otc, OTC)), BySymbol())
  }

  predicate Fresh(cache: seq<Entry>, timestamp: int, now: int) {
    |cache| > 0 && now - timestamp < CacheDuration
  }

  function FailureMessage(error: string): string {
    "獲取股票清單時發生錯誤: " + (if error != "" then error else UnknownError)
  }

  /** The handler as written: the reply and the new cache and timestamp.
      `crash` is an error thrown outside the two upstream queries. */
  function HandleSpec(cache: seq<Entry>, timestamp: int, now: int, tse: ListFetch, otc: ListFetch,
                      crash: Option<string>, nowIso: string): (Reply, seq<Entry>, int)
  {
    if Fresh(cache, timestamp, now) then (ListReply(cache, FromCache, |cache|, None, None), cache, timestamp)
    else if crash.Some? then
      if |cache| > 0 then (ListReply(cache, CacheFallback, |cache|, None, Some(StaleWarning)), cache, timestamp)
      else (ListError(500, FailureMessage(crash.value)), cache, timestamp)
    else
      var list := Listing(tse, otc);
      (ListReply(list, FromApi, |list|, Some(nowIso), None), list, now)
  }

  /** Both upstream queries gave no list at all. */
  predicate UpstreamDown(tse: ListFetch, otc: ListFetch) {
    !(tse.Ok? && tse.data.Some?) && !(otc.Ok? && otc.data.Some?)
  }

  /** The handler as its fallback branch means it: an upstream outage with a
      list in hand serves the stale list instead of replacing it. */
  function HandleIntended(cache: seq<Entry>, timestamp: int, now: int, tse: ListFetch, otc: ListFetch,
                          crash: Option<string>, nowIso: string): (Reply, seq<Entry>, int)
  {
    if !Fresh(cache, timestamp, now) && crash.None? && UpstreamDown(tse, otc) && |cache| > 0
    then (ListReply(cache, CacheFallback, |cache|, None, Some(StaleWarning)), cache, timestamp)
    else HandleSpec(cache, timestamp, now, tse, otc, crash, nowIso)
  }

  // ---------------------------------------------------------------------------
  // The handler over the module-level cache

  class StockListEndpoint {
    var cache: seq<Entry>
    var cacheTimestamp: int

    constructor ()
      ensures cache == [] && cacheTimestamp == 0
    {
      cache := [];
      cacheTimestamp := 0;
    }

    /** allStocks.push(...rows.map(normalise)) */
    static method PushAll(all: seq<Entry>, f: ListFetch, market: Market) returns (r: seq<Entry>)
      ensures r == all + FromFetch(f, market)
    {
      r := all;
      if f.Ok? && f.data.Some? {
        var rows := f.data.value;
        for i := 0 to |rows|
          invariant r == all + FromFetch(f, market)[..i]
        {
          assert FromFetch(f, market)[..i + 1] == FromFetch(f, market)[..i] + [Normalize(rows[i], market)];
          r := r + [Normalize(rows[i], market)];
        }
        assert FromFetch(f, market)[..|rows|] == FromFetch(f, market);
      }
    }

    /** The filter over the gathered entries. */
    static method KeepValid(all: seq<Entry>) returns (r: seq<Entry>)
      ensures r == Valid(all)
    {
      r := [];
      for i := 0 to |all|
        invariant r == Valid(all[..i])
      {
        assert all[..i + 1][..i] == all[..i];
        if all[i].symbol != "" && all[i].name != "" && Text.IsDigit(all[i].symbol[0]) {
          r := r + [all[i]];
        }
      }
      assert all[..|all|] == all;
    }

    method Handle(now: int, tse: ListFetch, otc: ListFetch, crash: Option<string>, nowIso: string) returns (reply: Reply)
      modifies this
      ensures reply == HandleSpec(old(cache), old(cacheTimestamp), now, tse, otc, crash, nowIso).0
      ensures cache == HandleSpec(old(cache), old(cacheTimestamp), now, tse, otc, crash, nowIso).1
      ensures cacheTimestamp == HandleSpec(old(cache), old(cacheTimestamp), now, tse, otc, crash, nowIso).2
    {
      if |cache| > 0 && now - cacheTimestamp < CacheDuration {
        return ListReply(cache, FromCache, |cache|, None, None);
      }
      if crash.Some? {
        if |cache| > 0 {
          return ListReply(cache, CacheFallback, |cache|, None, Some(StaleWarning));
        }
        return ListError(500, FailureMessage(crash.value));
      }
      var allStocks := PushAll([], tse, TWSE);
      allStocks := PushAll(allStocks, otc, OTC);
      assert allStocks == FromFetch(tse, TWSE) + FromFetch(otc, OTC);
      var validStocks := KeepValid(allStocks);
      validStocks := SortBy(validStocks, BySymbol());
      assert validStocks == Listing(tse, otc);
      cache := validStocks;
      cacheTimestamp := now;
      reply := ListReply(validStocks, FromApi, |validStocks|, Some(nowIso), None);
    }
  }

  // ---------------------------------------------------------------------------
  // Properties

  /** A hit is a non-empty cache younger than 24 hours; it is served as is
      and nothing changes. A miss without an outright failure refreshes the
      cache from upstream and stamps it with the current time. */
  lemma CacheRule(cache: seq<Entry>, timestamp: int, now: int, tse: ListFetch, otc: ListFetch,
                  crash: Option<string>, nowIso: string)
    ensures var (reply, cache', timestamp') := HandleSpec(cache, timestamp, now, tse, otc, crash, nowIso);
      && (reply.ListReply? && reply.source == FromCache <==> |cache| > 0 && now - timestamp < CacheDuration)
      && (reply.ListReply? && reply.source == FromCache ==> reply.data == cache && cache' == cache && timestamp' == timestamp)
      && (!Fresh(cache, timestamp, now) && crash.None? ==>
            && reply.ListReply? && reply.source == FromApi && reply.data == cache'
            && cache' == Listing(tse, otc) && timestamp' == now)
      && (reply.ListReply? ==> reply.count == |reply.data|)
  {
  }

  /** On an outright failure a non-empty cache is served however old, and
      an empty one gives 500; the cache is left as it was. */
  lemma FailureFallback(cache: seq<Entry>, timestamp: int, now: int, tse: ListFetch, otc: ListFetch,
                        error: string, nowIso: string)
    requires !Fresh(cache, timestamp, now)
    ensures var (reply, cache', timestamp') := HandleSpec(cache, timestamp, now, tse, otc, Some(error), nowIso);
      && cache' == cache && timestamp' == timestamp
      && (|cache| > 0 ==> reply == ListReply(cache, CacheFallback, |cache|, None, Some(StaleWarning)))
      && (|cache| == 0 ==> reply.ListError? && reply.status == 500)
  {
  }

  /** The refreshed list is ordered by symbol and holds exactly the upstream
      entries that pass the filter, duplicates included, each normalised
      with its market. */
  lemma ListingShape(tse: ListFetch, otc: ListFetch)
    ensures var list := Listing(tse, otc);
      var gathered := FromFetch(tse, TWSE) + FromFetch(otc, OTC);
      && Sorted(list, BySymbol())
      && multiset(list) == multiset(Valid(gathered))
      && (forall e :: e in list <==> e in gathered && Keep(e))
  {
    var gathered := FromFetch(tse, TWSE) + FromFetch(otc, OTC);
    BySymbolIsPreorder();
    SortCorrect(Valid(gathered), BySymbol());
    var list := Listing(tse, otc);
    forall e ensures e in list <==> e in gathered && Keep(e) {
      assert e in list <==> e in multiset(list);
      assert e in Valid(gathered) <==> e in multiset(Valid(gathered));
    }
  }

  /** Two identical upstream rows both reach the list: nothing is
      deduplicated. */
  lemma NoDeduplication(r: RawStock)
    requires Keep(Normalize(r, TWSE))
    ensures multiset(Listing(Ok(Some([r, r])), NotOk))[Normalize(r, TWSE)] == 2
  {
    var e := Normalize(r, TWSE);
    var gathered := FromFetch(Ok(Some([r, r])), TWSE) + FromFetch(NotOk, OTC);
    assert gathered == [e, e];
    assert multiset(gathered)[e] == 2;
    ValidCounts(gathered);
    BySymbolIsPreorder();
    SortCorrect(Valid(gathered), BySymbol());
  }

  /** As written, an upstream outage replaces a stale list with an empty
      one: the empty list is served once as an API answer, the next request
      is not served from the cache, and an error thrown later outside the
      upstream queries answers 500 where the stale list would have been the
      fallback. */
  lemma OutageWipesCache(cache: seq<Entry>, timestamp: int, now: int, tse: ListFetch, otc: ListFetch,
                         nowIso: string, later: int, message: string)
    requires |cache| > 0 && now - timestamp >= CacheDuration && UpstreamDown(tse, otc)
    ensures var (reply, cache', timestamp') := HandleSpec(cache, timestamp, now, tse, otc, None, nowIso);
      && cache' == [] && timestamp' == now
      && reply == ListReply([], FromApi, 0, Some(nowIso), None)
      && !Fresh(cache', timestamp', later)
      && HandleSpec(cache', timestamp', later, tse, otc, Some(message), nowIso).0 == ListError(500, FailureMessage(message))
  {
    assert FromFetch(tse, TWSE) + FromFetch(otc, OTC) == [];
    assert Valid([]) == [];
  }

  /** As intended, an upstream outage with a list in hand serves that list
      as a stale fallback and keeps it; in every other case the handler is
      unchanged. */
  lemma OutageKeepsCache(cache: seq<Entry>, timestamp: int, now: int, tse: ListFetch, otc: ListFetch,
                         crash: Option<string>, nowIso: string)
    ensures var (reply, cache', timestamp') := HandleIntended(cache, timestamp, now, tse, otc, crash, nowIso);
      && (|cache| > 0 && UpstreamDown(tse, otc) ==> |cache'| > 0)
      && (!Fresh(cache, timestamp, now) && UpstreamDown(tse, otc) && |cache| > 0 ==>
            reply == ListReply(cache, CacheFallback, |cache|, None, Some(StaleWarning)) && cache' == cache && timestamp' == timestamp)
      && (!(UpstreamDown(tse, otc) && |cache| > 0) ==>
            (reply, cache', timestamp') == HandleSpec(cache, timestamp, now, tse, otc, crash, nowIso))
  {
  }
}
