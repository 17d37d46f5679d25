/**
 * The polling fetchers of src/fetchers: the stock and derivatives minute-candle fetchers
 * (stock_fetcher.py, deriv_fetcher.py over the shared base_fetcher.py) and the option-chain
 * fetcher (option_chain_fetcher.py).
 *
 * The clock reading (`datetime.now()`) and the vendor's reply are parameters of each call;
 * `requested` reports whether the call went as far as issuing the HTTP request.
 */
module Fetchers {
  import opened Wrappers
  import opened Text
  import opened Clock
  import opened Models
  import opened Channel
  import opened Processors
  import opened MarketHours

  /** The `stck_cntg_hour` prefix of the session's closing bar. */
  function CloseMarker(market: MarketType): string
  {
    match market
    case Stock => "1530"
    case Derivatives => "1545"
  }

  /**
   * `_select_completed_candle` (newest bar first): the freshest bar once the session has
   * closed, otherwise the previous, finished bar, or the only bar there is.
   */
  function SelectCompleted(candles: seq<Bar>, currentTime: string, closeMarker: string): (r: Option<Bar>)
    ensures r.None? <==> |candles| == 0
    ensures |candles| > 0 && StartsWith(currentTime, closeMarker) ==> r == Some(candles[0])
    ensures |candles| > 1 && !StartsWith(currentTime, closeMarker) ==> r == Some(candles[1])
    ensures |candles| == 1 ==> r == Some(candles[0])
  {
    if |candles| < 1 then None
    else if StartsWith(currentTime, closeMarker) then Some(candles[0])
    else if |candles| > 1 then Some(candles[1])
    else Some(candles[0])
  }

  /** `not data.get(key)` fails: the list is absent or empty. */
  predicate HasRows(o: Option<seq<Bar>>)
  {
    o.Some? && |o.value| > 0
  }

  /** Where `fetch_data` ends up once the reply is in: an early result, or the gate's inputs. */
  datatype Plan = Done(out: Result<Dict>) | Gate(currentTime: Option<string>, completed: Bar)

  /**
   * `fetch_data` from the reply to the gate. `raise_for_status` lets the HTTP error escape;
   * `rt_cd` other than "0" or no rows gives `{}`; a freshest bar without a time raises on
   * `startswith`. The stock fetcher hands the gate the freshest bar's time, the derivatives
   * fetcher the selected bar's own time.
   */
  function CandlePlan(reply: Reply, closeMarker: string, cursorFromSelected: bool): (p: Plan)
    ensures reply.HttpFailure? ==> p == Done(Err(TransportError(reply.msg)))
    ensures reply.Json? && (reply.body.rtCd != Some("0") || !HasRows(reply.body.output2)) ==> p == Done(Ok([]))
    ensures p.Gate? ==>
      reply.Json? && HasRows(reply.body.output2) && |p.completed| > 0
      && var candles := reply.body.output2.value;
         var freshest := Field(candles[0], "stck_cntg_hour");
         freshest.Some?
         && Some(p.completed) == SelectCompleted(candles, freshest.value, closeMarker)
         && p.currentTime == (if cursorFromSelected then Field(p.completed, "stck_cntg_hour") else freshest)
    ensures reply.Json? && reply.body.rtCd == Some("0") && HasRows(reply.body.output2) ==>
      var candles := reply.body.output2.value;
      var freshest := Field(candles[0], "stck_cntg_hour");
      (freshest.None? ==> p == Done(Err(AttributeError("startswith"))))
      && (freshest.Some? ==>
            var selected := SelectCompleted(candles, freshest.value, closeMarker).value;
            (|selected| == 0 ==> p == Done(Ok([])))
            && (|selected| > 0 ==>
                  p == Gate(if cursorFromSelected then Field(selected, "stck_cntg_hour") else freshest, selected)))
  {
    match reply
    case HttpFailure(msg) => Done(Err(TransportError(msg)))
    case Json(body) =>
      if body.rtCd != Some("0") || !HasRows(body.output2) then Done(Ok([]))
      else
        var candles := body.output2.value;
        match Field(candles[0], "stck_cntg_hour")
        case None => Done(Err(AttributeError("startswith")))
        case Some(freshest) =>
          var completed := SelectCompleted(candles, freshest, closeMarker);
          if completed.None? || |completed.value| == 0 then Done(Ok([]))
          else Gate(if cursorFromSelected then Field(completed.value, "stck_cntg_hour") else Some(freshest),
                    completed.value)
  }

  /** `int(b.get(k, 0))` as a candle price. */
  function IntNumField(b: Bar, k: string): Result<Num>
  {
    var i :- IntField(b, k);
    Ok(IntNum(i))
  }

  /** `float(b.get(k, 0))` as a candle price. */
  function RealNumField(b: Bar, k: string): Result<Num>
  {
    var x :- RealField(b, k);
    Ok(RealNum(x))
  }

  /** Every field the stock conversion reads is a number (or is absent). */
  predicate StockFieldsParse(b: Bar)
  {
    IntField(b, "stck_oprc").Ok? && IntField(b, "stck_hgpr").Ok? && IntField(b, "stck_lwpr").Ok?
    && IntField(b, "stck_prpr").Ok? && IntField(b, "cntg_vol").Ok?
  }

  /** Every field the derivatives conversion reads is a number (or is absent). */
  predicate DerivFieldsParse(b: Bar)
  {
    RealField(b, "futs_oprc").Ok? && RealField(b, "futs_hgpr").Ok? && RealField(b, "futs_lwpr").Ok?
    && RealField(b, "futs_prpr").Ok? && IntField(b, "cntg_vol").Ok?
  }

  /**
   * `StockPriceFetcher._process_candle_data`: integer prices, data type "s", stamped with the
   * current minute plus one, except at 15:30 itself.
   */
  function StockCandle(symbol: string, timeframe: int, now: DateTime, bar: Bar): (r: Result<Option<CandleData>>)
    ensures |bar| == 0 <==> r == Ok(None)
    ensures |bar| > 0 ==> (r.Ok? <==> StockFieldsParse(bar))
    ensures r.Err? ==> r.error.ValueError?
    ensures r.Ok? && r.value.Some? ==>
      var c := r.value.value;
      c.symbol == symbol && c.timeframe == timeframe && c.dataType == "s" && c.timestamp == StockStamp(now)
      && Ok(c.open) == IntNumField(bar, "stck_oprc") && Ok(c.high) == IntNumField(bar, "stck_hgpr")
      && Ok(c.low) == IntNumField(bar, "stck_lwpr") && Ok(c.close) == IntNumField(bar, "stck_prpr")
      && Ok(c.volume) == IntField(bar, "cntg_vol")
  {
    if |bar| == 0 then Ok(None)
    else
      var ts := StockStamp(now);
      var o :- IntField(bar, "stck_oprc");
      var h :- IntField(bar, "stck_hgpr");
      var l :- IntField(bar, "stck_lwpr");
      var c :- IntField(bar, "stck_prpr");
      var v :- IntField(bar, "cntg_vol");
      Ok(Some(CandleData(symbol, ts, timeframe, IntNum(o), IntNum(h), IntNum(l), IntNum(c), v, "s")))
  }

  /** `DerivPriceFetcher._process_candle_data`: float prices, data type "d", the current minute. */
  function DerivCandle(symbol: string, timeframe: int, now: DateTime, bar: Bar): (r: Result<Option<CandleData>>)
    ensures |bar| == 0 <==> r == Ok(None)
    ensures |bar| > 0 ==> (r.Ok? <==> DerivFieldsParse(bar))
    ensures r.Err? ==> r.error.ValueError?
    ensures r.Ok? && r.value.Some? ==>
      var c := r.value.value;
      c.symbol == symbol && c.timeframe == timeframe && c.dataType == "d"
      && c.timestamp == FloorMinuteKst(Naive(now))
      && Ok(c.open) == RealNumField(bar, "futs_oprc") && Ok(c.high) == RealNumField(bar, "futs_hgpr")
      && Ok(c.low) == RealNumField(bar, "futs_lwpr") && Ok(c.close) == RealNumField(bar, "futs_prpr")
      && Ok(c.volume) == IntField(bar, "cntg_vol")
  {
    if |bar| == 0 then Ok(None)
    else
      var o :- RealField(bar, "futs_oprc");
      var h :- RealField(bar, "futs_hgpr");
      var l :- RealField(bar, "futs_lwpr");
      var c :- RealField(bar, "futs_prpr");
      var v :- IntField(bar, "cntg_vol");
      Ok(Some(CandleData(symbol, FloorMinuteKst(Naive(now)), timeframe,
                         RealNum(o), RealNum(h), RealNum(l), RealNum(c), v, "d")))
  }

  /** The minute a stock candle is stamped with: the current minute plus one, except at 15:30. */
  function StockStamp(now: DateTime): DateTime
  {
    var base := FloorMinuteKst(Naive(now));
    if HmText(base) == "1530" then base else AddMinutes(base, 1)
  }

  /** The stamp of a stock candle is the end of the minute in progress, except at 15:30. */
  lemma StockStampSpec(now: DateTime)
    requires now.Valid()
    ensures var ts := StockStamp(now);
      ts.Valid() && ts.second == 0 && ts.micro == 0
      && ((now.hour == 15 && now.minute == 30) <==> !Before(now, ts))
      && (Before(now, ts) ==> !Before(AddMinutes(now, 1), ts))
      && (!Before(now, ts) ==> ts.hour == 15 && ts.minute == 30 && Before(now, AddMinutes(ts, 1)))
  {
    var base := FloorMinuteKst(Naive(now));
    assert HmText(base) == "1530" <==> base.hour == 15 && base.minute == 30 by {
      FloorMinuteBrackets(Naive(now));
      assert Pad(15, 2) + Pad(30, 2) == "1530";
      HmTextIs(base, "1530", 15, 30);
    }
    if HmText(base) == "1530" {
      StampAtClose(now, base);
    } else {
      StampNextMinute(now, base);
    }
  }

  /** At 15:30 the stamp is the floored minute itself, which `now` does not precede. */
  lemma StampAtClose(now: DateTime, base: DateTime)
    requires now.Valid() && base == FloorMinuteKst(Naive(now)) && base.hour == 15 && base.minute == 30
    ensures base.Valid() && !Before(now, base) && Before(now, AddMinutes(base, 1))
  {
    FloorMinuteBrackets(Naive(now));
  }

  /** Otherwise the stamp is the next minute, which `now` precedes by at most a minute. */
  lemma StampNextMinute(now: DateTime, base: DateTime)
    requires now.Valid() && base == FloorMinuteKst(Naive(now)) && !(base.hour == 15 && base.minute == 30)
    ensures var ts := AddMinutes(base, 1);
      ts.Valid() && ts.second == 0 && ts.micro == 0 && Before(now, ts) && !Before(AddMinutes(now, 1), ts)
  {
    FloorMinuteBrackets(Naive(now));
    AddMinutesValid(base, 1);
    NextMinuteBound(now, base);
  }

  /** One minute after `now` is not earlier than the start of the next minute. */
  lemma NextMinuteBound(now: DateTime, base: DateTime)
    requires now.Valid() && base == FloorMinuteKst(Naive(now))
    ensures !Before(AddMinutes(now, 1), AddMinutes(base, 1))
  {
    AddOneMinuteLater(now);
    AddOneMinuteLater(base);
    var total := now.MinuteOfDay() + 1;
    if total < MinutesPerDay {
      assert AddMinutes(now, 1) == now.(hour := total / 60, minute := total % 60);
      assert AddMinutes(base, 1) == base.(hour := total / 60, minute := total % 60);
    } else {
      assert total / MinutesPerDay == 1;
      ShiftDaysKeepsTime(now.(hour := 0, minute := 0), 1);
      ShiftDaysKeepsTime(base.(hour := 0, minute := 0), 1);
    }
  }

  /** The stamp of a derivatives candle is the start of the minute that contains `now`. */
  lemma DerivCandleStamp(symbol: string, timeframe: int, now: DateTime, bar: Bar)
    requires now.Valid()
    requires DerivCandle(symbol, timeframe, now, bar).Ok? && DerivCandle(symbol, timeframe, now, bar).value.Some?
    ensures var ts := DerivCandle(symbol, timeframe, now, bar).value.value.timestamp;
      ts.Valid() && ts.second == 0 && ts.micro == 0 && !Before(now, ts) && Before(now, AddMinutes(ts, 1))
  {
    FloorMinuteBrackets(Naive(now));
  }

  /** `self._process_candle_data`, the conversion a fetcher hands its gate. */
  function CandleConvert(market: MarketType, symbol: string, timeframe: int, now: DateTime): Convert
  {
    match market
    case Stock => (b: Bar) => StockCandle(symbol, timeframe, now, b)
    case Derivatives => (b: Bar) => DerivCandle(symbol, timeframe, now, b)
  }

  /**
   * `StockPriceFetcher` / `DerivPriceFetcher`: the `PriceFetcher` base with its market type,
   * and the candle gate it owns.
   */
  class CandleFetcher {
    const market: MarketType
    const symbol: string
    const timeframe: int
    const processor: CandleProcessor

    constructor(queue: Queue, symbol: string, timeframe: int, market: MarketType)
      ensures this.market == market && this.symbol == symbol && this.timeframe == timeframe
      ensures fresh(processor) && processor.queue == queue && processor.lastProcessedTime.None?
    {
      this.market := market;
      this.symbol := symbol;
      this.timeframe := timeframe;
      processor := new CandleProcessor(symbol, timeframe, queue);
    }

    /**
     * `fetch_data`: outside the market's hours `{}` and no request; otherwise the request,
     * then the plan, then the gate with this fetcher's conversion.
     */
    method FetchData(now: DateTime, reply: Reply) returns (r: Result<Dict>, requested: bool)
      modifies processor, processor.queue
      ensures !IsMarketOpen(Some(market), now) ==>
        r == Ok([]) && !requested
        && processor.lastProcessedTime == old(processor.lastProcessedTime)
        && processor.queue.items == old(processor.queue.items)
      ensures IsMarketOpen(Some(market), now) ==> requested
      ensures IsMarketOpen(Some(market), now) ==>
        match CandlePlan(reply, CloseMarker(market), market == Derivatives)
        case Done(out) =>
          r == out && processor.lastProcessedTime == old(processor.lastProcessedTime)
          && processor.queue.items == old(processor.queue.items)
        case Gate(ct, c) =>
          var d := CandleDecision(old(processor.lastProcessedTime), ct, Some(c),
                                  CandleConvert(market, symbol, timeframe, now));
          processor.lastProcessedTime == d.cursor && r == d.out
          && processor.queue.items == old(processor.queue.items) + (if d.Emits() then [d.out.value] else [])
    {
      if !IsMarketOpen(Some(market), now) {
        return Ok([]), false;
      }
      requested := true;
      var plan := CandlePlan(reply, CloseMarker(market), market == Derivatives);
      match plan
      case Done(out) =>
        r := out;
      case Gate(ct, c) =>
        r := processor.ProcessCandleData(ct, Some(c), CandleConvert(market, symbol, timeframe, now));
    }
  }

  // ----------------------------------------------------------------------------------
  // Option chain
  // ----------------------------------------------------------------------------------

  /** The vendor fields `_process_option_data` reads. */
  const OptionBarKeys: set<string> :=
    {"optn_shrn_iscd", "atm_cls_name", "acpr", "optn_prpr", "hts_ints_vltl", "delta_val", "gama",
     "vega", "theta", "rho", "acml_vol", "hts_otst_stpl_qty"}

  /** Every numeric field `_process_option_data` converts reads as a number (or is absent). */
  predicate OptionFieldsParse(b: Bar)
  {
    RealField(b, "acpr").Ok? && RealField(b, "optn_prpr").Ok? && RealField(b, "hts_ints_vltl").Ok?
    && RealField(b, "delta_val").Ok? && RealField(b, "gama").Ok? && RealField(b, "vega").Ok?
    && RealField(b, "theta").Ok? && RealField(b, "rho").Ok?
    && IntField(b, "acml_vol").Ok? && IntField(b, "hts_otst_stpl_qty").Ok?
  }

  /**
   * `_process_option_data`: an empty record is None; missing fields default to "" and 0;
   * a malformed number raises ValueError.
   */
  function OptionFromBar(b: Bar): (r: Result<Option<OptionData>>)
    ensures |b| == 0 <==> r == Ok(None)
    ensures |b| > 0 ==> (r.Ok? <==> OptionFieldsParse(b))
    ensures r.Err? ==> r.error.ValueError?
    ensures r.Ok? && r.value.Some? ==>
      var o := r.value.value;
      o.symbol == TextField(b, "optn_shrn_iscd", "") && o.atmClass == TextField(b, "atm_cls_name", "")
      && Ok(o.strikePrice) == RealField(b, "acpr") && Ok(o.price) == RealField(b, "optn_prpr")
      && Ok(o.iv) == RealField(b, "hts_ints_vltl") && Ok(o.delta) == RealField(b, "delta_val")
      && Ok(o.gamma) == RealField(b, "gama") && Ok(o.vega) == RealField(b, "vega")
      && Ok(o.theta) == RealField(b, "theta") && Ok(o.rho) == RealField(b, "rho")
      && Ok(o.volume) == IntField(b, "acml_vol") && Ok(o.openInterest) == IntField(b, "hts_otst_stpl_qty")
    ensures |b| > 0 && (forall k | k in OptionBarKeys :: k !in b) ==>
              r == Ok(Some(OptionData("", "", 0.0, 0.0, 0.0, 0.0, 0.0, 0.0, 0.0, 0.0, 0, 0)))
  {
    if |b| == 0 then Ok(None)
    else
      var strike :- RealField(b, "acpr");
      var price :- RealField(b, "optn_prpr");
      var iv :- RealField(b, "hts_ints_vltl");
      var delta :- RealField(b, "delta_val");
      var gamma :- RealField(b, "gama");
      var vega :- RealField(b, "vega");
      var theta :- RealField(b, "theta");
      var rho :- RealField(b, "rho");
      var volume :- IntField(b, "acml_vol");
      var oi :- IntField(b, "hts_otst_stpl_qty");
      Ok(Some(OptionData(TextField(b, "optn_shrn_iscd", ""), TextField(b, "atm_cls_name", ""),
                         strike, price, iv, delta, gamma, vega, theta, rho, volume, oi)))
  }

  /** `[self._process_option_data(o) for o in raw]`: the first failing record raises. */
  function ConvertOptions(raw: seq<Bar>): (r: Result<seq<Option<OptionData>>>)
    ensures r.Ok? ==> |r.value| == |raw|
    ensures r.Ok? <==> forall i | 0 <= i < |raw| :: OptionFromBar(raw[i]).Ok?
    ensures r.Err? ==> r.error.ValueError?
    decreases |raw|
  {
    if |raw| == 0 then Ok([])
    else
      var first :- OptionFromBar(raw[0]);
      var rest :- ConvertOptions(raw[1..]);
      Ok([first] + rest)
  }

  /** `[c for c in xs if c]` */
  function Present(xs: seq<Option<OptionData>>): (r: seq<OptionData>)
    ensures |r| <= |xs|
    decreases |xs|
  {
    if |xs| == 0 then []
    else (if xs[0].Some? then [xs[0].value] else []) + Present(xs[1..])
  }

  /** The non-empty records of a reply list, in order. */
  function NonEmptyBars(raw: seq<Bar>): seq<Bar>
    decreases |raw|
  {
    if |raw| == 0 then []
    else (if |raw[0]| > 0 then [raw[0]] else []) + NonEmptyBars(raw[1..])
  }

  /**
   * Filtering the converted quotes keeps exactly the non-empty records, converted, in their
   * reply order.
   */
  lemma {:induction false} PresentOptions(raw: seq<Bar>)
    requires ConvertOptions(raw).Ok?
    ensures var kept := Present(ConvertOptions(raw).value);
      |kept| == |NonEmptyBars(raw)|
      && forall i | 0 <= i < |kept| :: OptionFromBar(NonEmptyBars(raw)[i]) == Ok(Some(kept[i]))
    decreases |raw|
  {
    if |raw| > 0 {
      PresentOptions(raw[1..]);
      var xs := ConvertOptions(raw).value;
      assert xs[1..] == ConvertOptions(raw[1..]).value;
      var kept := Present(xs);
      var restKept := Present(xs[1..]);
      if |raw[0]| > 0 {
        assert kept == [xs[0].value] + restKept;
        assert NonEmptyBars(raw) == [raw[0]] + NonEmptyBars(raw[1..]);
      } else {
        assert kept == restKept;
        assert NonEmptyBars(raw) == NonEmptyBars(raw[1..]);
      }
    }
  }

  /** `f"{maturity}_KOSPI200" if maturity else "unknown"` */
  function UnderlyingSymbol(maturity: Option<string>): (s: string)
    ensures s == "unknown" <==> !Given(maturity)
    ensures Given(maturity) ==> StartsWith(s, maturity.value)
  {
    if Given(maturity) then maturity.value + "_KOSPI200" else "unknown"
  }

  /**
   * The snapshot `fetch_data` assembles from an `rt_cd == "0"` reply: None when both lists
   * are empty; the underlying price from the first call, else the first put.
   */
  function ChainSnapshot(now: DateTime, maturity: Option<string>, body: Response): (r: Result<Option<OptionChainData>>)
    ensures var callsRaw := body.output1.GetOr([]); var putsRaw := body.output2.GetOr([]);
      (|callsRaw| == 0 && |putsRaw| == 0 ==> r == Ok(None))
      && (r.Ok? && r.value.Some? ==>
            var ch := r.value.value;
            ch.timestamp == Naive(now) && ch.underlyingSymbol == UnderlyingSymbol(maturity)
            && ch.dataType == OptionChainType
            && Ok(ch.underlyingPrice) == RealField(if |callsRaw| > 0 then callsRaw[0] else putsRaw[0], "unch_prpr")
            && ConvertOptions(callsRaw).Ok? && ConvertOptions(putsRaw).Ok?
            && ch.calls == Present(ConvertOptions(callsRaw).value)
            && ch.puts == Present(ConvertOptions(putsRaw).value))
    ensures var callsRaw := body.output1.GetOr([]); var putsRaw := body.output2.GetOr([]);
      |callsRaw| + |putsRaw| > 0 ==>
        var price := RealField(if |callsRaw| > 0 then callsRaw[0] else putsRaw[0], "unch_prpr");
        var calls := ConvertOptions(callsRaw);
        var puts := ConvertOptions(putsRaw);
        (r.Ok? <==> price.Ok? && calls.Ok? && puts.Ok?)
        && r != Ok(None)
        && (price.Err? ==> r == Err(price.error))
        && (price.Ok? && calls.Err? ==> r == Err(calls.error))
        && (price.Ok? && calls.Ok? && puts.Err? ==> r == Err(puts.error))
    ensures r.Err? ==> r.error.ValueError?
  {
    var callsRaw := body.output1.GetOr([]);
    var putsRaw := body.output2.GetOr([]);
    if |callsRaw| == 0 && |putsRaw| == 0 then Ok(None)
    else
      var source := if |callsRaw| > 0 then callsRaw[0] else putsRaw[0];
      var price :- RealField(source, "unch_prpr");
      var calls :- ConvertOptions(callsRaw);
      var puts :- ConvertOptions(putsRaw);
      Ok(Some(OptionChainData(Naive(now), UnderlyingSymbol(maturity), price,
                              Present(calls), Present(puts), OptionChainType)))
  }

  /** What one requested option-chain fetch returns: the enqueued snapshot dict, `{}` or an exception. */
  function ChainOutcome(now: DateTime, maturity: Option<string>, reply: Reply): (r: Result<Dict>)
    ensures reply.HttpFailure? ==> r.Err?
    ensures reply.Json? && reply.body.rtCd != Some("0") ==> r == Ok([])
    ensures r.Ok? && |r.value| > 0 ==>
      reply.Json? && exists ch :: ChainSnapshot(now, maturity, reply.body) == Ok(Some(ch)) && r.value == ChainToDict(ch)
    ensures reply.Json? && reply.body.rtCd == Some("0") ==>
      match ChainSnapshot(now, maturity, reply.body)
      case Err(e) => r == Err(e)
      case Ok(None) => r == Ok([])
      case Ok(Some(ch)) => r == Ok(ChainToDict(ch)) && |r.value| > 0
  {
    match reply
    case HttpFailure(msg) => Err(TransportError(msg))
    case Json(body) =>
      if body.rtCd != Some("0") then Ok([])
      else match ChainSnapshot(now, maturity, body)
        case Err(e) => Err(e)
        case Ok(None) => Ok([])
        case Ok(Some(ch)) => Ok(ChainToDict(ch))
  }

  /** `OptionChainFetcher`: at most one request per clock minute (`%H%M`). */
  class OptionChainFetcher {
    const queue: Queue
    const symbol: string
    const timeframe: int
    const maturity: Option<string>
    const underlyingAssetType: Option<string>
    const displayName: Option<string>
    var lastFetchMinute: Option<string>

    constructor(queue: Queue, symbol: string, timeframe: int, maturity: Option<string>,
                underlyingAssetType: Option<string>, displayName: Option<string>)
      ensures this.queue == queue && this.symbol == symbol && this.timeframe == timeframe
      ensures this.maturity == maturity && this.underlyingAssetType == underlyingAssetType
      ensures this.displayName == displayName && lastFetchMinute.None?
    {
      this.queue := queue;
      this.symbol := symbol;
      this.timeframe := timeframe;
      this.maturity := maturity;
      this.underlyingAssetType := underlyingAssetType;
      this.displayName := displayName;
      lastFetchMinute := None;
    }

    /**
     * `fetch_data`: outside derivatives hours, or again within the minute of the last
     * request, `{}` and no request. Otherwise the minute is recorded before the request, so
     * it is spent even when the request fails; a snapshot is enqueued and returned.
     */
    method FetchData(now: DateTime, reply: Reply) returns (r: Result<Dict>, requested: bool)
      modifies this, queue
      ensures requested <==> IsMarketOpen(Some(Derivatives), now) && old(lastFetchMinute) != Some(HmText(now))
      ensures !requested ==> r == Ok([]) && lastFetchMinute == old(lastFetchMinute) && queue.items == old(queue.items)
      ensures requested ==>
        lastFetchMinute == Some(HmText(now)) && r == ChainOutcome(now, maturity, reply)
        && queue.items == old(queue.items) + (if r.Ok? && |r.value| > 0 then [r.value] else [])
    {
      if !IsMarketOpen(Some(Derivatives), now) {
        return Ok([]), false;
      }
      var currentMinute := HmText(now);
      if lastFetchMinute == Some(currentMinute) {
        return Ok([]), false;
      }
      lastFetchMinute := Some(currentMinute);
      requested := true;
      r := ChainOutcome(now, maturity, reply);
      if r.Ok? && |r.value| > 0 {
        queue.Put(r.value);
      }
    }
  }

  /** The minutes, in call order, at which a run of in-hours calls issued a request. */
  function RequestedMinutes(last: Option<string>, minutes: seq<string>): seq<string>
    decreases |minutes|
  {
    if |minutes| == 0 then []
    else if last == Some(minutes[0]) then RequestedMinutes(last, minutes[1..])
    else [minutes[0]] + RequestedMinutes(Some(minutes[0]), minutes[1..])
  }

  /**
   * While the clock moves forward (the minute texts never decrease), the requested minutes
   * increase strictly: at most one request per minute, after the last recorded one.
   */
  lemma {:induction false} OneRequestPerMinute(last: Option<string>, minutes: seq<string>)
    requires forall i, j | 0 <= i < j < |minutes| :: LessEq(minutes[i], minutes[j])
    requires last.Some? ==> forall i | 0 <= i < |minutes| :: LessEq(last.value, minutes[i])
    ensures var req := RequestedMinutes(last, minutes);
      (forall i, j | 0 <= i < j < |req| :: Less(req[i], req[j]))
      && (last.Some? ==> forall i | 0 <= i < |req| :: Less(last.value, req[i]))
    decreases |minutes|
  {
    if |minutes| > 0 {
      var m := minutes[0];
      var rest := minutes[1..];
      assert forall i | 0 <= i < |rest| :: rest[i] == minutes[i + 1];
      var req := RequestedMinutes(last, minutes);
      if last == Some(m) {
        OneRequestPerMinute(last, rest);
        assert req == RequestedMinutes(last, rest);
        assert var r' := RequestedMinutes(last, rest); forall i, j | 0 <= i < j < |r'| :: Less(r'[i], r'[j]);
        assert var r' := RequestedMinutes(last, rest); forall i | 0 <= i < |r'| :: Less(last.value, r'[i]);
      } else {
        OneRequestPerMinute(Some(m), rest);
        var tail := RequestedMinutes(Some(m), rest);
        assert var r' := RequestedMinutes(Some(m), rest); forall i, j | 0 <= i < j < |r'| :: Less(r'[i], r'[j]);
        assert var r' := RequestedMinutes(Some(m), rest); forall i | 0 <= i < |r'| :: Less(m, r'[i]);
        assert req == [m] + tail;
        if last.Some? {
          LessTrichotomy(last.value, m);
          forall i | 0 <= i < |req| ensures Less(last.value, req[i])
          {
            if i > 0 {
              LessTransitive(last.value, m, req[i]);
            }
          }
        }
      }
    }
  }
}
