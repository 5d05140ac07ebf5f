/** The per-day quote cache of composables/useStockPrice.ts: two in-memory
    maps mirrored into the encrypting store, one entry per symbol per day,
    filled from the quote endpoint on a miss. The endpoint is an oracle
    object that answers each request and logs it. */
module StockPrice {
  import opened Wrappers
  import opened Json
  import opened Storage
  import opened Crypto
  import opened SecureStorage
  import Seqs
  import Text

  /** What `new Date()` reports: full year, zero-based month, day of month. */
  datatype Date = Date(year: nat, monthIndex: nat, day: nat)

  /** getTodayString: YYYY-MM-DD. */
  function TodayString(d: Date): string {
    Text.Decimal(d.year) + "-" + Text.PadStart(Text.Decimal(d.monthIndex + 1), 2, '0') + "-" + Text.PadStart(Text.Decimal(d.day), 2, '0')
  }

  predicate ValidDate(d: Date) {
    1000 <= d.year <= 9999 && d.monthIndex < 12 && 1 <= d.day <= 31
  }

  lemma PaddedTwo(n: nat)
    requires 1 <= n < 100
    ensures |Text.PadStart(Text.Decimal(n), 2, '0')| == 2
  {
  }

  lemma DashedFields(y: string, m: string, d: string)
    requires |y| == 4 && |m| == 2 && |d| == 2
    ensures var s := y + "-" + m + "-" + d;
      |s| == 10 && s[4] == '-' && s[7] == '-' && s[..4] == y && s[5..7] == m && s[8..] == d
  {
  }

  /** For a four-digit year the string is ten characters, dashes at 4 and
      7, and each field reads back as the year, the one-based month and the
      day. */
  lemma TodayStringFormat(d: Date)
    requires ValidDate(d)
    ensures var s := TodayString(d);
      && |s| == 10 && s[4] == '-' && s[7] == '-'
      && Text.AllDigits(s[..4]) && Text.ParseDecimal(s[..4]) == d.year
      && Text.AllDigits(s[5..7]) && Text.ParseDecimal(s[5..7]) == d.monthIndex + 1
      && Text.AllDigits(s[8..]) && Text.ParseDecimal(s[8..]) == d.day
  {
    var y := Text.Decimal(d.year);
    var m := Text.PadStart(Text.Decimal(d.monthIndex + 1), 2, '0');
    var dd := Text.PadStart(Text.Decimal(d.day), 2, '0');
    PaddedTwo(d.monthIndex + 1);
    PaddedTwo(d.day);
    DashedFields(y, m, dd);
    Text.DecimalRoundTrip(d.year);
    Text.PaddedDecimalRoundTrip(d.monthIndex + 1, 2);
    Text.PaddedDecimalRoundTrip(d.day, 2);
  }

  /** Distinct days give distinct cache dates. */
  lemma TodayStringInjective(d1: Date, d2: Date)
    requires ValidDate(d1) && ValidDate(d2) && TodayString(d1) == TodayString(d2)
    ensures d1 == d2
  {
    TodayStringFormat(d1);
    TodayStringFormat(d2);
  }

  const PricePrefix: string := "stock_price_"
  const NamePrefix: string := "stock_name_"

  function PriceCacheKey(symbol: string): (k: string)
    ensures Text.StartsWith(k, PricePrefix) && k[|PricePrefix|..] == symbol
  {
    PricePrefix + symbol
  }

  function NameCacheKey(symbol: string): (k: string)
    ensures Text.StartsWith(k, NamePrefix) && k[|NamePrefix|..] == symbol
  {
    NamePrefix + symbol
  }

  /** The two key families never collide with each other, within a family
      distinct symbols have distinct keys, and neither meets the cipher's
      master key. */
  lemma CacheKeysDistinct(a: string, b: string)
    ensures PriceCacheKey(a) != NameCacheKey(b)
    ensures PriceCacheKey(a) == PriceCacheKey(b) ==> a == b
    ensures NameCacheKey(a) == NameCacheKey(b) ==> a == b
    ensures PriceCacheKey(a) != MasterKeyName && NameCacheKey(a) != MasterKeyName
  {
    assert PriceCacheKey(a)[6] == 'p' && NameCacheKey(b)[6] == 'n';
    assert PriceCacheKey(a)[0] == 's' && NameCacheKey(a)[0] == 's' && MasterKeyName[0] == '_';
  }

  // ---------------------------------------------------------------------------
  // The quote endpoint

  datatype ApiCall = QuoteRequest(symbol: string) | ClearCacheRequest

  /** A fetch: a thrown network error, or a response with its ok flag and
      its body (None where the body is not JSON). */
  datatype FetchOutcome = NetworkError | Response(ok: bool, body: Option<Json>)

  class QuoteApi {
    /** The answer to the n-th request. */
    const respond: (nat, ApiCall) -> FetchOutcome
    var log: seq<ApiCall>

    constructor (respond: (nat, ApiCall) -> FetchOutcome)
      ensures this.respond == respond && log == []
    {
      this.respond := respond;
      log := [];
    }

    method Request(call: ApiCall) returns (r: FetchOutcome)
      modifies this
      ensures r == respond(|old(log)|, call) && log == old(log) + [call]
    {
      r := respond(|log|, call);
      log := log + [call];
    }
  }

  /** fetchStockPrice's handling of the answer: the body, when the response
      is OK and the body is truthy with a truthy symbol. */
  function PriceFromResponse(outcome: FetchOutcome): (r: Option<Json>)
    ensures r.Some? ==> outcome.Response? && outcome.ok && Truthy(r.value) && Truthy(Field(r.value, "symbol"))
    ensures outcome.NetworkError? || !outcome.ok || outcome.body.None? ==> r.None?
  {
    match outcome
    case NetworkError => None
    case Response(ok, body) =>
      if !ok || body.None? then None
      else if Truthy(body.value) && Truthy(Field(body.value, "symbol")) then Some(body.value)
      else None
  }

  /** fetchStockName's handling of the answer: the body's truthy name. */
  function NameFromResponse(outcome: FetchOutcome): (r: Option<Json>)
    ensures r.Some? ==> outcome.Response? && outcome.ok && outcome.body.Some? && r.value == Field(outcome.body.value, "name") && Truthy(r.value)
    ensures outcome.NetworkError? || !outcome.ok || outcome.body.None? ==> r.None?
  {
    match outcome
    case NetworkError => None
    case Response(ok, body) =>
      if !ok || body.None? then None
      else if Truthy(body.value) && Truthy(Field(body.value, "name")) then Some(Field(body.value, "name"))
      else None
  }

  // ---------------------------------------------------------------------------
  // The daily lookup shared by getStockPrice and getStockName

  datatype Kind = PriceKind | NameKind

  function CacheKey(kind: Kind, symbol: string): string {
    if kind.PriceKind? then PriceCacheKey(symbol) else NameCacheKey(symbol)
  }

  /** The field of the cached entry holding the value. */
  function Slot(kind: Kind): string {
    if kind.PriceKind? then "price" else "name"
  }

  function Extract(kind: Kind, outcome: FetchOutcome): Option<Json> {
    if kind.PriceKind? then PriceFromResponse(outcome) else NameFromResponse(outcome)
  }

  /** The entry stored after a successful fetch: `{price, date}` or `{name, date}`. */
  function Entry(kind: Kind, v: Json, today: string): Json {
    JObj(map[Slot(kind) := v, "date" := JStr(today)])
  }

  /** The cache-hit rule: a truthy entry dated today with a truthy value. */
  function CachedValue(kind: Kind, cached: Json, today: string): (r: Option<Json>)
    ensures r.Some? ==> Field(cached, "date") == JStr(today) && Truthy(r.value)
  {
    if Truthy(cached) && Field(cached, "date") == JStr(today) && Truthy(Field(cached, Slot(kind)))
    then Some(Field(cached, Slot(kind))) else None
  }

  /** One lookup: the value, the store afterwards, and whether it fetched. */
  datatype Step = Step(result: Option<Json>, env: Env, fetched: bool)

  /** getStockPrice / getStockName, given the endpoint's answer should it be
      asked: a hit returns the cached value without fetching; a miss fetches,
      and a success is stored with today's date. */
  function DailyLookup(kind: Kind, p: Platform, c: Codec, stream: nat -> byte, env: Env, reply: FetchOutcome, symbol: string, today: string): Step {
    var key := CacheKey(kind, symbol);
    var (cached, env1) := GetSpec(p, c, stream, env, key, JNull);
    match CachedValue(kind, cached, today)
    case Some(v) => Step(Some(v), env1, false)
    case None =>
      match Extract(kind, reply)
      case None => Step(None, env1, true)
      case Some(v) => Step(Some(v), SetSpec(p, c, stream, env1, key, Entry(kind, v, today), DefaultOptions).1, true)
  }

  lemma EntryNotRecord(c: Codec, kind: Kind, v: Json, today: string)
    requires LawfulCodec(c)
    ensures !HoldsRecord(c, StringValue(c, Entry(kind, v, today)))
  {
    assert c.parse(c.stringify(Entry(kind, v, today))) == Some(Entry(kind, v, today));
    assert Field(Entry(kind, v, today), "encrypted") == JNull;
  }

  /** A value stored today is a hit for the rest of the day: once a lookup
      has a value, the next lookup of the same symbol on the same day
      returns it without fetching and changes nothing. */
  lemma SameDayHit(kind: Kind, p: Platform, c: Codec, stream: nat -> byte, env: Env, reply: FetchOutcome, reply2: FetchOutcome, symbol: string, today: string)
    requires LawfulPlatform(p) && LawfulCodec(c)
    requires DailyLookup(kind, p, c, stream, env, reply, symbol, today).result.Some?
    ensures var s := DailyLookup(kind, p, c, stream, env, reply, symbol, today);
      DailyLookup(kind, p, c, stream, s.env, reply2, symbol, today) == Step(s.result, s.env, false)
  {
    var key := CacheKey(kind, symbol);
    CacheKeysDistinct(symbol, symbol);
    var (cached, env1) := GetSpec(p, c, stream, env, key, JNull);
    GetRepeatable(p, c, stream, env, key, JNull);
    if CachedValue(kind, cached, today).None? {
      StoredEntryHit(kind, p, c, stream, env1, Extract(kind, reply).value, symbol, today);
    }
  }

  /** The entry a successful fetch stores reads back, the same day, as a
      hit on the fetched value. */
  lemma StoredEntryHit(kind: Kind, p: Platform, c: Codec, stream: nat -> byte, env: Env, v: Json, symbol: string, today: string)
    requires LawfulPlatform(p) && LawfulCodec(c) && Truthy(v)
    ensures var key := CacheKey(kind, symbol);
      var env' := SetSpec(p, c, stream, env, key, Entry(kind, v, today), DefaultOptions).1;
      && GetSpec(p, c, stream, env', key, JNull) == (Entry(kind, v, today), env')
      && CachedValue(kind, Entry(kind, v, today), today) == Some(v)
  {
    var key := CacheKey(kind, symbol);
    CacheKeysDistinct(symbol, symbol);
    var e := Entry(kind, v, today);
    EntryNotRecord(c, kind, v, today);
    SetEffect(p, c, stream, env, key, e, DefaultOptions);
    SetThenGet(p, c, stream, env, key, e, DefaultOptions, JNull);
    ReadbackValue(c, e, JNull);
  }

  /** A failed fetch is not cached: the lookup reports nothing, and the next
      lookup fetches again. Nothing but the master key changed. */
  lemma FailedFetchNotCached(kind: Kind, p: Platform, c: Codec, stream: nat -> byte, env: Env, reply: FetchOutcome, reply2: FetchOutcome, symbol: string, today: string)
    requires DailyLookup(kind, p, c, stream, env, reply, symbol, today).result.None?
    ensures var s := DailyLookup(kind, p, c, stream, env, reply, symbol, today);
      && s.fetched
      && DailyLookup(kind, p, c, stream, s.env, reply2, symbol, today).fetched
      && forall k :: k != MasterKeyName ==> Lookup(s.env.entries, k) == Lookup(env.entries, k)
  {
    var key := CacheKey(kind, symbol);
    CacheKeysDistinct(symbol, symbol);
    GetRepeatable(p, c, stream, env, key, JNull);
    GetEffect(p, c, stream, env, key, JNull);
  }

  // ---------------------------------------------------------------------------
  // The cache object

  class QuoteCache {
    var prices: map<string, Json>
    var names: map<string, Json>
    var loading: map<string, bool>
    const local: LocalStorage
    const rng: Entropy
    const api: QuoteApi
    const platform: Platform
    const codec: Codec

    constructor (local: LocalStorage, rng: Entropy, api: QuoteApi, platform: Platform, codec: Codec)
      ensures prices == map[] && names == map[] && loading == map[]
      ensures this.local == local && this.rng == rng && this.api == api
      ensures this.platform == platform && this.codec == codec
    {
      prices := map[];
      names := map[];
      loading := map[];
      this.local := local;
      this.rng := rng;
      this.api := api;
      this.platform := platform;
      this.codec := codec;
    }

    method FetchStockPrice(symbol: string) returns (r: Option<Json>)
      modifies api
      ensures api.log == old(api.log) + [QuoteRequest(symbol)]
      ensures r == PriceFromResponse(api.respond(|old(api.log)|, QuoteRequest(symbol)))
    {
      var outcome := api.Request(QuoteRequest(symbol));
      r := PriceFromResponse(outcome);
    }

    method FetchStockName(symbol: string) returns (r: Option<Json>)
      modifies api
      ensures api.log == old(api.log) + [QuoteRequest(symbol)]
      ensures r == NameFromResponse(api.respond(|old(api.log)|, QuoteRequest(symbol)))
    {
      var outcome := api.Request(QuoteRequest(symbol));
      r := NameFromResponse(outcome);
    }

    /** The body shared by getStockPrice and getStockName, for the day
        `today`: the value found is mirrored into `prices` or `names`. */
    method LookupOn(kind: Kind, symbol: string, today: string) returns (r: Option<Json>)
      modifies this, local, rng, api
      ensures var s := DailyLookup(kind, platform, codec, rng.stream, old(Env(local.entries, rng.cursor)),
                                   api.respond(|old(api.log)|, QuoteRequest(symbol)), symbol, today);
        && r == s.result
        && Env(local.entries, rng.cursor) == s.env
        && api.log == old(api.log) + (if s.fetched then [QuoteRequest(symbol)] else [])
      ensures kind.PriceKind? ==> prices == (if r.Some? then old(prices)[symbol := r.value] else old(prices)) && names == old(names)
      ensures kind.NameKind? ==> names == (if r.Some? then old(names)[symbol := r.value] else old(names)) && prices == old(prices)
      ensures loading == old(loading)
    {
      var key := CacheKey(kind, symbol);
      ghost var env0 := Env(local.entries, rng.cursor);
      var cached := GetItem(local, rng, platform, codec, key, JNull);
      ghost var env1 := Env(local.entries, rng.cursor);
      assert GetSpec(platform, codec, rng.stream, env0, key, JNull) == (cached, env1);
      r := CachedValue(kind, cached, today);
      if r.None? {
        if kind.PriceKind? {
          r := FetchStockPrice(symbol);
        } else {
          r := FetchStockName(symbol);
        }
        if r.Some? {
          var _ := SetItem(local, rng, platform, codec, key, Entry(kind, r.value, today), DefaultOptions);
        }
      }
      if r.Some? {
        if kind.PriceKind? {
          prices := prices[symbol := r.value];
        } else {
          names := names[symbol := r.value];
        }
      }
    }

    /** getStockPrice. */
    method GetStockPrice(symbol: string, now: Date) returns (r: Option<Json>)
      modifies this, local, rng, api
      ensures var s := DailyLookup(PriceKind, platform, codec, rng.stream, old(Env(local.entries, rng.cursor)),
                                   api.respond(|old(api.log)|, QuoteRequest(symbol)), symbol, TodayString(now));
        && r == s.result
        && Env(local.entries, rng.cursor) == s.env
        && api.log == old(api.log) + (if s.fetched then [QuoteRequest(symbol)] else [])
      ensures prices == if r.Some? then old(prices)[symbol := r.value] else old(prices)
      ensures names == old(names) && loading == old(loading)
    {
      r := LookupOn(PriceKind, symbol, TodayString(now));
    }

    /** getStockName. */
    method GetStockName(symbol: string, now: Date) returns (r: Option<Json>)
      modifies this, local, rng, api
      ensures var s := DailyLookup(NameKind, platform, codec, rng.stream, old(Env(local.entries, rng.cursor)),
                                   api.respond(|old(api.log)|, QuoteRequest(symbol)), symbol, TodayString(now));
        && r == s.result
        && Env(local.entries, rng.cursor) == s.env
        && api.log == old(api.log) + (if s.fetched then [QuoteRequest(symbol)] else [])
      ensures names == if r.Some? then old(names)[symbol := r.value] else old(names)
      ensures prices == old(prices) && loading == old(loading)
    {
      r := LookupOn(NameKind, symbol, TodayString(now));
    }

    /** forceRefreshStockPrice: both stored entries and both mirrors of the
        symbol are dropped, then getStockPrice runs. */
    method ForceRefreshStockPrice(symbol: string, now: Date) returns (r: Option<Json>)
      modifies this, local, rng, api
      ensures var cleared := Env(Delete(Delete(old(local.entries), PriceCacheKey(symbol)), NameCacheKey(symbol)), old(rng.cursor));
        var s := DailyLookup(PriceKind, platform, codec, rng.stream, cleared,
                             api.respond(|old(api.log)|, QuoteRequest(symbol)), symbol, TodayString(now));
        && r == s.result
        && Env(local.entries, rng.cursor) == s.env
        && api.log == old(api.log) + (if s.fetched then [QuoteRequest(symbol)] else [])
      ensures prices == if r.Some? then (old(prices) - {symbol})[symbol := r.value] else old(prices) - {symbol}
      ensures names == old(names) - {symbol}
      ensures loading == old(loading)
    {
      var _ := RemoveItem(local, PriceCacheKey(symbol));
      var _ := RemoveItem(local, NameCacheKey(symbol));
      prices := prices - {symbol};
      names := names - {symbol};
      assert loading == old(loading);
      r := GetStockPrice(symbol, now);
    }

    /** isValidStock: whether the endpoint gives the symbol a name. */
    method IsValidStock(symbol: string) returns (valid: bool)
      modifies api
      ensures api.log == old(api.log) + [QuoteRequest(symbol)]
      ensures valid <==> NameFromResponse(api.respond(|old(api.log)|, QuoteRequest(symbol))).Some?
    {
      var name := FetchStockName(symbol);
      valid := name != None;
    }

    /** clearCache: the server is told (its answer ignored), the three
        mirrors are emptied and every stored quote entry is removed. */
    method ClearCache()
      modifies this, local, api
      ensures api.log == old(api.log) + [ClearCacheRequest]
      ensures prices == map[] && names == map[] && loading == map[]
      ensures local.entries == RemoveAll(old(local.entries), QuoteKeys(old(local.entries)))
    {
      var _ := api.Request(ClearCacheRequest);
      prices := map[];
      names := map[];
      loading := map[];
      var keysToRemove := [];
      var i := 0;
      while i < |local.entries|
        invariant 0 <= i <= |local.entries|
        invariant local.entries == old(local.entries)
        invariant keysToRemove == QuoteKeysUpTo(local.entries, i)
      {
        var key := local.entries[i].0;
        if IsQuoteCacheKey(key) {
          keysToRemove := keysToRemove + [key];
        }
        i := i + 1;
      }
      for j := 0 to |keysToRemove|
        modifies local
        invariant local.entries == RemoveAll(old(local.entries), keysToRemove[..j])
      {
        assert keysToRemove[..j + 1][..j] == keysToRemove[..j];
        var _ := RemoveItem(local, keysToRemove[j]);
      }
      assert keysToRemove[..|keysToRemove|] == keysToRemove;
    }
  }

  /** forceRefreshStockPrice always fetches, returns what the endpoint
      answers, and leaves no stored name for the symbol. */
  lemma ForceRefreshFetches(p: Platform, c: Codec, stream: nat -> byte, e: Entries, cursor: nat, reply: FetchOutcome, symbol: string, today: string)
    requires LawfulPlatform(p) && LawfulCodec(c)
    ensures var cleared := Env(Delete(Delete(e, PriceCacheKey(symbol)), NameCacheKey(symbol)), cursor);
      var s := DailyLookup(PriceKind, p, c, stream, cleared, reply, symbol, today);
      && s.fetched
      && s.result == PriceFromResponse(reply)
      && Lookup(s.env.entries, NameCacheKey(symbol)) == None
  {
    var d1 := Delete(e, PriceCacheKey(symbol));
    var cleared := Env(Delete(d1, NameCacheKey(symbol)), cursor);
    CacheKeysDistinct(symbol, symbol);
    LookupDelete(e, PriceCacheKey(symbol), PriceCacheKey(symbol));
    LookupDelete(d1, NameCacheKey(symbol), PriceCacheKey(symbol));
    LookupDelete(e, PriceCacheKey(symbol), NameCacheKey(symbol));
    LookupDelete(d1, NameCacheKey(symbol), NameCacheKey(symbol));
    var s := DailyLookup(PriceKind, p, c, stream, cleared, reply, symbol, today);
    if s.result.Some? {
      SetEffect(p, c, stream, cleared, PriceCacheKey(symbol), Entry(PriceKind, s.result.value, today), DefaultOptions);
    }
  }

  // ---------------------------------------------------------------------------
  // clearCache's key selection

  predicate IsQuoteCacheKey(k: string) {
    k != "" && (Text.StartsWith(k, PricePrefix) || Text.StartsWith(k, NamePrefix))
  }

  function QuoteKeysUpTo(e: Entries, n: nat): seq<string>
    requires n <= |e|
  {
    if n == 0 then []
    else QuoteKeysUpTo(e, n - 1) + (if IsQuoteCacheKey(e[n - 1].0) then [e[n - 1].0] else [])
  }

  function QuoteKeys(e: Entries): seq<string> {
    QuoteKeysUpTo(e, |e|)
  }

  lemma {:induction false} QuoteKeysUpToExact(e: Entries, n: nat, k: string)
    requires n <= |e|
    ensures k in QuoteKeysUpTo(e, n) <==> IsQuoteCacheKey(k) && k in Keys(e)[..n]
  {
    if n > 0 {
      QuoteKeysUpToExact(e, n - 1, k);
      var last := e[n - 1].0;
      assert k in Keys(e)[..n] <==> k in Keys(e)[..n - 1] || k == last by {
        Seqs.TakeSnoc(Keys(e), n);
      }
      assert k in QuoteKeysUpTo(e, n) <==> k in QuoteKeysUpTo(e, n - 1) || (IsQuoteCacheKey(last) && k == last);
    }
  }

  /** clearCache removes exactly the price and name entries, whatever their
      symbol; every other key, the master key included, keeps its value. */
  lemma ClearCacheExact(e: Entries, k: string)
    ensures Lookup(RemoveAll(e, QuoteKeys(e)), k) == if IsQuoteCacheKey(k) then None else Lookup(e, k)
    ensures IsQuoteCacheKey(PriceCacheKey(k)) && IsQuoteCacheKey(NameCacheKey(k)) && !IsQuoteCacheKey(MasterKeyName)
  {
    QuoteKeysUpToExact(e, |e|, k);
    Seqs.TakeAll(Keys(e));
    LookupIn(e, k);
    LookupRemoveAll(e, QuoteKeys(e), k);
    assert MasterKeyName[0] == '_';
  }
}
