/** The quote endpoint of server/api/stock.ts: the symbol is validated, the
    price is looked up in the listed dataset and then, if that has no rows,
    in the OTC dataset; the name likewise; the result is assembled from
    what was found. The upstream datasets are inputs: each query either
    throws, answers with a non-OK status, or answers with a payload whose
    `data` rows may be missing. */
module StockApi {
  import opened Wrappers
  import Text

  datatype Board = Listed | Otc

  /** The four upstream queries, in the order the handler may issue them. */
  datatype Query = PriceQuery(board: Board) | InfoQuery(board: Board)

  /** A query's outcome: a thrown error (network or body), a non-OK
      response, or an OK response whose payload may lack `data`. */
  datatype Fetch<T> = Threw | NotOk | Ok(data: Option<seq<T>>)

  datatype PriceRow = PriceRow(close: real)
  datatype InfoRow = InfoRow(stockName: string)

  datatype Market = TWSE | OTC

  datatype Quote = Quote(
    symbol: string, name: string, price: real, change: real, changePercent: real,
    market: Market, source: string, timestamp: string, hasPrice: bool, hasName: bool)

  /** What the handler arrives at: a rejected request, nothing found, or a
      quote. How "nothing found" reaches the caller is a separate step. */
  datatype Outcome = Rejected(status: int, message: string) | NothingFound(symbol: string) | Found(quote: Quote)

  datatype Reply = ErrorReply(status: int, message: string) | QuoteReply(quote: Quote)

  const MissingSymbol: string := "請提供股票代碼"
  const BadFormat: string := "股票代碼格式錯誤，請輸入4-6位數字"
  const TooLong: string := "股票代碼長度不可超過6位數"
  const Source: string := "FinMind"

  function NotFoundMessage(symbol: string): string {
    "找不到股票代碼 " + symbol + " 的資料，請確認股票代碼是否正確"
  }

  function InternalMessage(symbol: string): string {
    "查詢股票 " + symbol + " 時發生錯誤"
  }

  function DefaultName(symbol: string): string {
    "股票代碼 " + symbol
  }

  predicate IsAsciiDigit(c: char) { '0' <= c <= '9' }

  /** /^[0-9]{4,6}$/ */
  predicate ValidSymbol(s: string) {
    4 <= |s| <= 6 && forall i :: 0 <= i < |s| ==> IsAsciiDigit(s[i])
  }

  predicate HasRows<T>(data: Option<seq<T>>) {
    data.Some? && |data.value| > 0
  }

  // ---------------------------------------------------------------------------
  // The stages, as functions of the upstream answers

  datatype PriceState = PriceState(price: Option<real>, change: real, changePercent: real, isOtc: bool)

  const NoPrice := PriceState(None, 0.0, 0.0, false)

  /** The close of the last row, and the move from the row before it when
      there is one. */
  function SelectPrice(rows: seq<PriceRow>, isOtc: bool): (st: PriceState)
    requires |rows| > 0
    ensures st.price == Some(rows[|rows| - 1].close) && st.isOtc == isOtc
    ensures |rows| == 1 ==> st.change == 0.0 && st.changePercent == 0.0
    ensures |rows| > 1 ==> st.change == rows[|rows| - 1].close - rows[|rows| - 2].close
    ensures |rows| > 1 && rows[|rows| - 2].close != 0.0 ==> st.changePercent * rows[|rows| - 2].close == st.change * 100.0
  {
    var last := rows[|rows| - 1].close;
    if |rows| > 1 then
      var previous := rows[|rows| - 2].close;
      var change := last - previous;
      PriceState(Some(last), change, if previous != 0.0 then change / previous * 100.0 else 0.0, isOtc)
    else PriceState(Some(last), 0.0, 0.0, isOtc)
  }

  /** Stage 1: the listed dataset, the OTC dataset when the listed one has
      no rows; a thrown error ends the stage with what was found so far. */
  function PriceStage(listed: Fetch<PriceRow>, otc: Fetch<PriceRow>): (PriceState, seq<Query>) {
    if listed.Threw? then (NoPrice, [PriceQuery(Listed)])
    else
      var first := if listed.Ok? then listed.data else None;
      if HasRows(first) then (SelectPrice(first.value, false), [PriceQuery(Listed)])
      else if otc.Threw? then (NoPrice, [PriceQuery(Listed), PriceQuery(Otc)])
      else
        var data := if otc.Ok? then otc.data else first;
        var isOtc := otc.Ok? && HasRows(otc.data);
        (if HasRows(data) then SelectPrice(data.value, isOtc) else NoPrice, [PriceQuery(Listed), PriceQuery(Otc)])
  }

  /** Stage 2: the first listed info row's name, else the first OTC info
      row's name, which also marks the stock as OTC. The empty string
      stands for a missing name. */
  function NameStage(listed: Fetch<InfoRow>, otc: Fetch<InfoRow>, isOtc: bool): (string, bool, seq<Query>) {
    if listed.Threw? then ("", isOtc, [InfoQuery(Listed)])
    else
      var name := if listed.Ok? && HasRows(listed.data) then listed.data.value[0].stockName else "";
      if name != "" then (name, isOtc, [InfoQuery(Listed)])
      else if otc.Ok? && HasRows(otc.data) then (otc.data.value[0].stockName, true, [InfoQuery(Listed), InfoQuery(Otc)])
      else ("", isOtc, [InfoQuery(Listed), InfoQuery(Otc)])
  }

  /** Stage 3: nothing found when there is neither a name nor a non-zero
      price; otherwise the quote with its defaults filled in. */
  function Assemble(symbol: string, st: PriceState, name: string, isOtc: bool, now: string): Outcome {
    var hasPrice := st.price.Some? && st.price.value != 0.0;
    if name == "" && !hasPrice then NothingFound(symbol)
    else Found(Quote(symbol, if name != "" then name else DefaultName(symbol),
                     if hasPrice then st.price.value else 0.0, st.change, st.changePercent,
                     if isOtc then OTC else TWSE, Source, now, hasPrice, name != ""))
  }

  /** The handler: the outcome and the upstream queries it issued. */
  function HandleSpec(symbol: Option<string>, prices: (Board, string) -> Fetch<PriceRow>,
                      infos: (Board, string) -> Fetch<InfoRow>, now: string): (Outcome, seq<Query>)
  {
    if symbol.None? || symbol.value == "" then (Rejected(400, MissingSymbol), [])
    else
      var s := Text.Trim(symbol.value);
      if !ValidSymbol(s) then (Rejected(400, BadFormat), [])
      else if |s| > 6 then (Rejected(400, TooLong), [])
      else
        var (st, q1) := PriceStage(prices(Listed, s), prices(Otc, s));
        var (name, isOtc, q2) := NameStage(infos(Listed, s), infos(Otc, s), st.isOtc);
        (Assemble(s, st, name, isOtc, now), q1 + q2)
  }

  /** The status the caller sees, as the handler is written: the 404 for
      "nothing found" is thrown inside the outer try and replaced by the
      catch-all 500. */
  function RespondAsWritten(o: Outcome): Reply {
    match o
    case Rejected(status, message) => ErrorReply(status, message)
    case NothingFound(s) => ErrorReply(500, InternalMessage(s))
    case Found(q) => QuoteReply(q)
  }

  /** The status the handler means to give: 404 for "nothing found". */
  function Respond(o: Outcome): Reply {
    match o
    case Rejected(status, message) => ErrorReply(status, message)
    case NothingFound(s) => ErrorReply(404, NotFoundMessage(s))
    case Found(q) => QuoteReply(q)
  }

  // ---------------------------------------------------------------------------
  // The handler as the source runs it

  /** Stage 1 over the handler's variables. */
  method LookupPrice(prices: (Board, string) -> Fetch<PriceRow>, s: string) returns (st: PriceState, queries: seq<Query>)
    ensures (st, queries) == PriceStage(prices(Listed, s), prices(Otc, s))
  {
    var stockPrice: Option<real> := None;
    var priceChange := 0.0;
    var priceChangePercent := 0.0;
    var isOtc := false;
    var response := prices(Listed, s);
    queries := [PriceQuery(Listed)];
    if !response.Threw? {
      var priceData: Option<seq<PriceRow>> := None;
      if response.Ok? {
        priceData := response.data;
      }
      var aborted := false;
      if !HasRows(priceData) {
        response := prices(Otc, s);
        queries := queries + [PriceQuery(Otc)];
        if response.Threw? {
          aborted := true;
        } else if response.Ok? {
          priceData := response.data;
          if HasRows(priceData) {
            isOtc := true;
          }
        }
      }
      if !aborted && HasRows(priceData) {
        var rows := priceData.value;
        stockPrice := Some(rows[|rows| - 1].close);
        if |rows| > 1 {
          var previous := rows[|rows| - 2].close;
          priceChange := stockPrice.value - previous;
          priceChangePercent := if previous != 0.0 then priceChange / previous * 100.0 else 0.0;
        }
        assert PriceState(stockPrice, priceChange, priceChangePercent, isOtc) == SelectPrice(rows, isOtc);
      }
    }
    st := PriceState(stockPrice, priceChange, priceChangePercent, isOtc);
    assert queries == PriceStage(prices(Listed, s), prices(Otc, s)).1;
    assert st == PriceStage(prices(Listed, s), prices(Otc, s)).0;
  }

  /** Stage 2 over the handler's variables. */
  method LookupName(infos: (Board, string) -> Fetch<InfoRow>, s: string, isOtc0: bool)
    returns (stockName: string, isOtc: bool, queries: seq<Query>)
    ensures (stockName, isOtc, queries) == NameStage(infos(Listed, s), infos(Otc, s), isOtc0)
  {
    stockName := "";
    isOtc := isOtc0;
    var info := infos(Listed, s);
    queries := [InfoQuery(Listed)];
    if !info.Threw? {
      if info.Ok? && HasRows(info.data) {
        stockName := info.data.value[0].stockName;
      }
      if stockName == "" {
        info := infos(Otc, s);
        queries := queries + [InfoQuery(Otc)];
        if info.Ok? && HasRows(info.data) {
          stockName := info.data.value[0].stockName;
          isOtc := true;
        }
      }
    }
    assert stockName == NameStage(infos(Listed, s), infos(Otc, s), isOtc0).0;
    assert isOtc == NameStage(infos(Listed, s), infos(Otc, s), isOtc0).1;
    assert queries == NameStage(infos(Listed, s), infos(Otc, s), isOtc0).2;
  }

  /** The handler: validation, the two stages, the result. */
  method HandleStock(symbol: Option<string>, prices: (Board, string) -> Fetch<PriceRow>,
                     infos: (Board, string) -> Fetch<InfoRow>, now: string)
    returns (outcome: Outcome, queries: seq<Query>)
    ensures (outcome, queries) == HandleSpec(symbol, prices, infos, now)
  {
    if symbol.None? || symbol.value == "" {
      return Rejected(400, MissingSymbol), [];
    }
    var s := Text.Trim(symbol.value);
    if !ValidSymbol(s) {
      return Rejected(400, BadFormat), [];
    }
    if |s| > 6 {
      return Rejected(400, TooLong), [];
    }
    var st, q1 := LookupPrice(prices, s);
    var stockName, isOtc, q2 := LookupName(infos, s, st.isOtc);
    outcome := Assemble(s, st, stockName, isOtc, now);
    queries := q1 + q2;
  }

  // ---------------------------------------------------------------------------
  // Properties

  /** A missing or empty symbol, or one that is not 4 to 6 ASCII digits
      after trimming, is rejected with 400 before any upstream query; the
      length check after the pattern never fires. */
  lemma SymbolValidation(symbol: Option<string>, prices: (Board, string) -> Fetch<PriceRow>,
                         infos: (Board, string) -> Fetch<InfoRow>, now: string)
    ensures var (o, qs) := HandleSpec(symbol, prices, infos, now);
      && (o.Rejected? <==> symbol.None? || symbol.value == "" || !ValidSymbol(Text.Trim(symbol.value)))
      && (o.Rejected? ==> o.status == 400 && qs == [] && o.message != TooLong)
      && (!o.Rejected? ==> |qs| >= 2 && qs[0] == PriceQuery(Listed))
  {
  }

  /** The OTC price dataset is queried exactly when the listed query did not
      throw and gave no rows; the result is marked OTC by the price stage
      exactly when OTC rows were found. */
  lemma OtcPriceFallback(listed: Fetch<PriceRow>, otc: Fetch<PriceRow>)
    ensures var (st, qs) := PriceStage(listed, otc);
      && (PriceQuery(Otc) in qs <==> !listed.Threw? && !(listed.Ok? && HasRows(listed.data)))
      && (st.isOtc <==> PriceQuery(Otc) in qs && otc.Ok? && HasRows(otc.data))
      && (st.price.Some? <==> (listed.Ok? && HasRows(listed.data)) || (PriceQuery(Otc) in qs && otc.Ok? && HasRows(otc.data)))
  {
  }

  /** The name comes from the listed info when its first row has one;
      otherwise the OTC info is asked, and its first row, if any, supplies
      the name and marks the stock OTC. */
  lemma NameFallback(listed: Fetch<InfoRow>, otc: Fetch<InfoRow>, isOtc: bool)
    ensures var (name, otcNow, qs) := NameStage(listed, otc, isOtc);
      var listedName := if listed.Ok? && HasRows(listed.data) then listed.data.value[0].stockName else "";
      && (listed.Threw? ==> name == "" && otcNow == isOtc && qs == [InfoQuery(Listed)])
      && (!listed.Threw? && listedName != "" ==> name == listedName && otcNow == isOtc && qs == [InfoQuery(Listed)])
      && (!listed.Threw? && listedName == "" ==>
            && InfoQuery(Otc) in qs
            && name == (if otc.Ok? && HasRows(otc.data) then otc.data.value[0].stockName else "")
            && otcNow == (isOtc || (otc.Ok? && HasRows(otc.data))))
  {
  }

  /** A quote carries the trimmed symbol, the found name or the default
      one, the price or 0, the market by the OTC flag, and flags that say
      whether a name and a non-zero price were found. Nothing found means
      neither. */
  lemma QuoteDefaults(symbol: Option<string>, prices: (Board, string) -> Fetch<PriceRow>,
                      infos: (Board, string) -> Fetch<InfoRow>, now: string)
    requires symbol.Some? && ValidSymbol(Text.Trim(symbol.value))
    ensures var s := Text.Trim(symbol.value);
      var (st, _) := PriceStage(prices(Listed, s), prices(Otc, s));
      var (name, isOtc, _) := NameStage(infos(Listed, s), infos(Otc, s), st.isOtc);
      var o := HandleSpec(symbol, prices, infos, now).0;
      var hasPrice := st.price.Some? && st.price.value != 0.0;
      && (o.NothingFound? <==> name == "" && !hasPrice)
      && (o.Found? ==>
            && o.quote.symbol == s
            && o.quote.name == (if name != "" then name else DefaultName(s))
            && o.quote.price == (if hasPrice then st.price.value else 0.0)
            && (o.quote.market == OTC <==> isOtc)
            && o.quote.hasPrice == hasPrice && o.quote.hasName == (name != "")
            && o.quote.source == Source && o.quote.timestamp == now)
  {
  }

  /** As written, the caller never sees 404: a symbol with neither a name
      nor a price gets 500. */
  lemma MissingQuoteIs500(symbol: Option<string>, prices: (Board, string) -> Fetch<PriceRow>,
                          infos: (Board, string) -> Fetch<InfoRow>, now: string)
    ensures var o := HandleSpec(symbol, prices, infos, now).0;
      && (RespondAsWritten(o).ErrorReply? ==> RespondAsWritten(o).status != 404)
      && (o.NothingFound? ==> RespondAsWritten(o) == ErrorReply(500, InternalMessage(o.symbol)))
  {
  }

  /** Upstream answers with an empty `data` array. */
  function NoPriceRows(b: Board, s: string): Fetch<PriceRow> { Ok(Some([])) }
  function NoInfoRows(b: Board, s: string): Fetch<InfoRow> { Ok(Some([])) }

  /** The case that shows it: any well-formed symbol, "9999" say, for
      which every upstream answer is an empty list. */
  lemma MissingQuoteExample(s: string, now: string)
    requires ValidSymbol(s)
    ensures var o := HandleSpec(Some(s), NoPriceRows, NoInfoRows, now).0;
      o == NothingFound(s) && RespondAsWritten(o).status == 500
  {
    TrimKeepsDigits(s);
    EmptyStages();
  }

  /** Empty upstream answers give neither a price nor a name. */
  lemma EmptyStages()
    ensures PriceStage(Ok(Some([])), Ok(Some([]))).0 == NoPrice
    ensures NameStage(Ok(Some([])), Ok(Some([])), false).0 == ""
    ensures !NameStage(Ok(Some([])), Ok(Some([])), false).1
  {
    var none: Option<seq<InfoRow>> := Some([]);
    assert !HasRows(none);
  }

  lemma TrimKeepsDigits(s: string)
    requires s != [] && forall i :: 0 <= i < |s| ==> IsAsciiDigit(s[i])
    ensures Text.Trim(s) == s
  {
    assert !Text.IsJsSpace(s[0]) && !Text.IsJsSpace(s[|s| - 1]);
    assert Text.TrimStart(s) == s;
    assert Text.TrimEnd(s) == s;
  }

  /** As intended, "nothing found" is the one case that gets 404, and it is
      the case with neither a name nor a non-zero price. */
  lemma MissingQuoteIs404(symbol: Option<string>, prices: (Board, string) -> Fetch<PriceRow>,
                          infos: (Board, string) -> Fetch<InfoRow>, now: string)
    ensures var o := HandleSpec(symbol, prices, infos, now).0;
      && (Respond(o).ErrorReply? && Respond(o).status == 404 <==> o.NothingFound?)
      && (o.NothingFound? ==> Respond(o) == ErrorReply(404, NotFoundMessage(o.symbol)))
      && (o.NothingFound? ==> symbol.Some? && o.symbol == Text.Trim(symbol.value))
  {
  }
}
