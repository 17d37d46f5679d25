/**
 * src/feed.py, the single-file predecessor of src/core and src/fetchers: the same records and
 * session hours, but a candle gate whose first call only primes the cursor and which drops a
 * time only when it equals the cursor, selectors that give nothing for a lone unfinished
 * bar, stock candles stamped with the current minute, and a polling loop that runs every
 * fetcher at once without retries.
 */
module LegacyFeed {
  import opened Wrappers
  import opened Text
  import opened Clock
  import opened Models
  import opened Channel
  import opened Processors
  import opened MarketHours
  import opened Fetchers
  import opened Factory
  import opened Polling

  /**
   * `_select_completed_candle` of the legacy fetchers: the freshest bar at the close marker,
   * otherwise the previous bar, and nothing when there is only one.
   */
  function LegacySelect(candles: seq<Bar>, currentTime: string, closeMarker: string): (r: Option<Bar>)
    ensures r.Some? <==> |candles| > 1 || (|candles| == 1 && StartsWith(currentTime, closeMarker))
    ensures r.Some? ==> r.value == if StartsWith(currentTime, closeMarker) then candles[0] else candles[1]
  {
    if |candles| < 1 then None
    else if StartsWith(currentTime, closeMarker) then Some(candles[0])
    else if |candles| > 1 then Some(candles[1])
    else None
  }

  /** The legacy and current selectors differ exactly on a single bar before the close. */
  lemma LegacySelectAgrees(candles: seq<Bar>, currentTime: string, closeMarker: string)
    ensures LegacySelect(candles, currentTime, closeMarker) != SelectCompleted(candles, currentTime, closeMarker)
            <==> |candles| == 1 && !StartsWith(currentTime, closeMarker)
    ensures LegacySelect(candles, currentTime, closeMarker).Some? ==>
              LegacySelect(candles, currentTime, closeMarker) == SelectCompleted(candles, currentTime, closeMarker)
  {
  }

  /**
   * Legacy `fetch_data` from the reply to the gate: like the current fetchers, except for
   * the selector, and both markets hand the gate the freshest bar's time.
   */
  function LegacyPlan(reply: Reply, closeMarker: string): (p: Plan)
    ensures reply.HttpFailure? ==> p == Done(Err(TransportError(reply.msg)))
    ensures reply.Json? && (reply.body.rtCd != Some("0") || !HasRows(reply.body.output2)) ==> p == Done(Ok([]))
    ensures p.Gate? ==>
      reply.Json? && HasRows(reply.body.output2) && |p.completed| > 0
      && var candles := reply.body.output2.value;
         p.currentTime == Field(candles[0], "stck_cntg_hour") && p.currentTime.Some?
         && Some(p.completed) == LegacySelect(candles, p.currentTime.value, closeMarker)
    ensures reply.Json? && reply.body.rtCd == Some("0") && HasRows(reply.body.output2) ==>
      var candles := reply.body.output2.value;
      var freshest := Field(candles[0], "stck_cntg_hour");
      (freshest.None? ==> p == Done(Err(AttributeError("startswith"))))
      && (freshest.Some? ==>
            var selected := LegacySelect(candles, freshest.value, closeMarker);
            (selected.None? || |selected.value| == 0 ==> p == Done(Ok([])))
            && (selected.Some? && |selected.value| > 0 ==> p == Gate(freshest, selected.value)))
  {
    match reply
    case HttpFailure(msg) => Done(Err(TransportError(msg)))
    case Json(body) =>
      if body.rtCd != Some("0") || !HasRows(body.output2) then Done(Ok([]))
      else
        var candles := body.output2.value;
        match Field(candles[0], "stck_cntg_hour")
        case None => Done(Err(AttributeError("startswith")))
        case Some(freshest) =>
          var completed := LegacySelect(candles, freshest, closeMarker);
          if completed.None? || |completed.value| == 0 then Done(Ok([]))
          else Gate(Some(freshest), completed.value)
  }

  /** Where the legacy plan reaches the gate, the current stock plan reaches it with the same inputs. */
  lemma LegacyPlanAgrees(reply: Reply, closeMarker: string)
    ensures LegacyPlan(reply, closeMarker).Gate? ==> CandlePlan(reply, closeMarker, false) == LegacyPlan(reply, closeMarker)
    ensures LegacyPlan(reply, closeMarker).Done? && CandlePlan(reply, closeMarker, false).Gate? ==>
      LegacyPlan(reply, closeMarker) == Done(Ok([])) && |reply.body.output2.value| == 1
  {
  }

  /**
   * Legacy `CandleProcessor.process_candle_data`: a missing time or record is ignored; the
   * first valid call only primes the cursor; a time equal to the cursor is a repeat; any other
   * time, older ones included, moves the cursor and may emit.
   */
  function LegacyDecision(cursor: Option<string>, currentTime: Option<string>, completed: Option<Bar>,
                          convert: Convert): (r: Decision)
    ensures !Given(currentTime) || !GivenBar(completed) ==> r == Decision(cursor, Ok([]))
    ensures Given(currentTime) && GivenBar(completed) && cursor.None? ==> r == Decision(currentTime, Ok([]))
    ensures Given(currentTime) && GivenBar(completed) ==> r.cursor == currentTime
    ensures r.Emits() <==>
              Given(currentTime) && GivenBar(completed) && cursor.Some? && cursor != currentTime
              && convert(completed.value).Ok? && convert(completed.value).value.Some?
    ensures r.Emits() ==> r.out.value == CandleToDict(convert(completed.value).value.value)
    ensures Given(currentTime) && GivenBar(completed) && cursor.Some? && cursor != currentTime ==>
              (convert(completed.value).Err? ==> r.out == Err(convert(completed.value).error))
              && (convert(completed.value) == Ok(None) ==> r.out == Ok([]))
  {
    if !Given(currentTime) || !GivenBar(completed) then Decision(cursor, Ok([]))
    else if cursor.None? then Decision(currentTime, Ok([]))
    else if cursor == currentTime then Decision(cursor, Ok([]))
    else
      var converted := convert(completed.value);
      if converted.Err? then Decision(currentTime, Err(converted.error))
      else if converted.value.None? then Decision(currentTime, Ok([]))
      else
        CandleDictNonEmpty(converted.value.value);
        Decision(currentTime, Ok(CandleToDict(converted.value.value)))
  }

  /**
   * Once primed, the legacy gate admits everything the current gate admits, with the same
   * record; the only times it admits beyond those are ones older than the cursor.
   */
  lemma GatesCompared(cursor: Option<string>, currentTime: Option<string>, completed: Option<Bar>, convert: Convert)
    requires Given(cursor)
    ensures CandleDecision(cursor, currentTime, completed, convert).Emits() ==>
              LegacyDecision(cursor, currentTime, completed, convert) == CandleDecision(cursor, currentTime, completed, convert)
    ensures LegacyDecision(cursor, currentTime, completed, convert).Emits()
            && !CandleDecision(cursor, currentTime, completed, convert).Emits() ==>
              Less(currentTime.value, cursor.value)
  {
    if LegacyDecision(cursor, currentTime, completed, convert).Emits()
       && !CandleDecision(cursor, currentTime, completed, convert).Emits() {
      LessTrichotomy(cursor.value, currentTime.value);
    }
  }

  /** The times, in order, at which a run of calls put a record on the queue. */
  function LegacyEmittedTimes(cursor: Option<string>, calls: seq<CandleCall>, convert: Convert): seq<string>
    decreases |calls|
  {
    if |calls| == 0 then []
    else
      var d := LegacyDecision(cursor, calls[0].currentTime, calls[0].completed, convert);
      (if d.Emits() then [calls[0].currentTime.value] else []) + LegacyEmittedTimes(d.cursor, calls[1..], convert)
  }

  /** A call repeating the time of the valid call just before it adds nothing to the queue. */
  lemma {:induction false} LegacyNeverRepeatsBackToBack(cursor: Option<string>, calls: seq<CandleCall>, convert: Convert)
    requires |calls| >= 2
    requires Given(calls[0].currentTime) && GivenBar(calls[0].completed)
    requires calls[1].currentTime == calls[0].currentTime
    ensures |LegacyEmittedTimes(cursor, calls, convert)| == |LegacyEmittedTimes(cursor, calls[..1], convert)|
                                                          + |LegacyEmittedTimes(calls[0].currentTime, calls[2..], convert)|
  {
    var d0 := LegacyDecision(cursor, calls[0].currentTime, calls[0].completed, convert);
    var d1 := LegacyDecision(d0.cursor, calls[1].currentTime, calls[1].completed, convert);
    assert d0.cursor == calls[0].currentTime;
    assert !d1.Emits() && d1.cursor == d0.cursor;
    assert calls[1..][1..] == calls[2..];
    assert LegacyEmittedTimes(d0.cursor, calls[1..], convert) == LegacyEmittedTimes(d0.cursor, calls[2..], convert);
    assert LegacyEmittedTimes(d0.cursor, calls[..1][1..], convert) == [];
  }

  /**
   * With the cursor at 09:02, a bar for 09:01 goes through the legacy gate, and a replay of
   * 09:02 after it goes through again; the current gate drops both.
   */
  lemma LegacyReplaysOlderMinutes(bar: Bar, c: CandleData)
    requires |bar| > 0
    ensures var convert: Convert := _ => Ok(Some(c));
      var calls := [CandleCall(Some("090100"), Some(bar)), CandleCall(Some("090200"), Some(bar))];
      LegacyEmittedTimes(Some("090200"), calls, convert) == ["090100", "090200"]
      && EmittedTimes(Some("090200"), calls, convert) == []
  {
    var convert: Convert := _ => Ok(Some(c));
    var calls := [CandleCall(Some("090100"), Some(bar)), CandleCall(Some("090200"), Some(bar))];
    assert Less("090100", "090200");
    assert !Less("090200", "090100") by {
      LessAsymmetric("090100", "090200");
    }
    assert !Less("090200", "090200") by {
      LessIrreflexive("090200");
    }
    assert calls[1..][1..] == [];
    assert LegacyEmittedTimes(Some("090100"), calls[1..], convert) == ["090200"];
    assert EmittedTimes(Some("090200"), calls[1..], convert) == [];
  }

  /**
   * Legacy `StockPriceFetcher._process_candle_data`: integer prices, data type "s", stamped
   * with the current minute, not the next one.
   */
  function LegacyStockCandle(symbol: string, timeframe: int, now: DateTime, bar: Bar): (r: Result<Option<CandleData>>)
    ensures |bar| == 0 <==> r == Ok(None)
    ensures |bar| > 0 ==> (r.Ok? <==> StockFieldsParse(bar))
    ensures r.Err? ==> r.error.ValueError?
    ensures r.Ok? && r.value.Some? ==>
      var c := r.value.value;
      c.symbol == symbol && c.timeframe == timeframe && c.dataType == "s"
      && c.timestamp == FloorMinuteKst(Naive(now))
      && Ok(c.open) == IntNumField(bar, "stck_oprc") && Ok(c.high) == IntNumField(bar, "stck_hgpr")
      && Ok(c.low) == IntNumField(bar, "stck_lwpr") && Ok(c.close) == IntNumField(bar, "stck_prpr")
      && Ok(c.volume) == IntField(bar, "cntg_vol")
  {
    if |bar| == 0 then Ok(None)
    else
      var o :- IntField(bar, "stck_oprc");
      var h :- IntField(bar, "stck_hgpr");
      var l :- IntField(bar, "stck_lwpr");
      var c :- IntField(bar, "stck_prpr");
      var v :- IntField(bar, "cntg_vol");
      Ok(Some(CandleData(symbol, FloorMinuteKst(Naive(now)), timeframe, IntNum(o), IntNum(h), IntNum(l), IntNum(c), v, "s")))
  }

  /**
   * The legacy and current stock candles carry the same fields; the current one is stamped a
   * minute later except at 15:30.
   */
  lemma StockStampShifted(symbol: string, timeframe: int, now: DateTime, bar: Bar)
    ensures LegacyStockCandle(symbol, timeframe, now, bar).Ok? <==> StockCandle(symbol, timeframe, now, bar).Ok?
    ensures var l := LegacyStockCandle(symbol, timeframe, now, bar);
      var s := StockCandle(symbol, timeframe, now, bar);
      l.Ok? && l.value.Some? ==>
        s.value.Some?
        && s.value.value == l.value.value.(timestamp := s.value.value.timestamp)
        && s.value.value.timestamp ==
             (if HmText(l.value.value.timestamp) == "1530" then l.value.value.timestamp
              else AddMinutes(l.value.value.timestamp, 1))
  {
  }

  /** The legacy fetcher's `self._process_candle_data`. */
  function LegacyConvert(market: MarketType, symbol: string, timeframe: int, now: DateTime): Convert
  {
    match market
    case Stock => (b: Bar) => LegacyStockCandle(symbol, timeframe, now, b)
    case Derivatives => (b: Bar) => DerivCandle(symbol, timeframe, now, b)
  }

  /** Legacy `CandleProcessor` */
  class LegacyCandleProcessor {
    const symbol: string
    const timeframe: int
    const queue: Queue
    var lastProcessedTime: Option<string>

    constructor(symbol: string, timeframe: int, queue: Queue)
      ensures this.symbol == symbol && this.timeframe == timeframe && this.queue == queue
      ensures lastProcessedTime.None?
    {
      this.symbol := symbol;
      this.timeframe := timeframe;
      this.queue := queue;
      lastProcessedTime := None;
    }

    /** `process_candle_data`: the cursor becomes the decision's, and the emitted record is enqueued. */
    method ProcessCandleData(currentTime: Option<string>, completed: Option<Bar>, convert: Convert)
      returns (r: Result<Dict>)
      modifies this, queue
      ensures var d := LegacyDecision(old(lastProcessedTime), currentTime, completed, convert);
        lastProcessedTime == d.cursor && r == d.out
        && queue.items == old(queue.items) + (if d.Emits() then [d.out.value] else [])
    {
      if !Given(currentTime) || !GivenBar(completed) {
        return Ok([]);
      }
      if lastProcessedTime.None? {
        lastProcessedTime := currentTime;
        return Ok([]);
      }
      if lastProcessedTime == currentTime {
        return Ok([]);
      }
      lastProcessedTime := currentTime;
      var processed := convert(completed.value);
      if processed.Err? {
        return Err(processed.error);
      }
      if processed.value.None? {
        return Ok([]);
      }
      var candleData := CandleToDict(processed.value.value);
      queue.Put(candleData);
      r := Ok(candleData);
    }
  }

  /** Legacy `StockPriceFetcher` / `DerivPriceFetcher` */
  class LegacyFetcher {
    const market: MarketType
    const symbol: string
    const timeframe: int
    const processor: LegacyCandleProcessor

    constructor(queue: Queue, symbol: string, timeframe: int, market: MarketType)
      ensures this.market == market && this.symbol == symbol && this.timeframe == timeframe
      ensures fresh(processor) && processor.queue == queue && processor.lastProcessedTime.None?
    {
      this.market := market;
      this.symbol := symbol;
      this.timeframe := timeframe;
      processor := new LegacyCandleProcessor(symbol, timeframe, queue);
    }

    /** `fetch_data`: the session check, the request, the plan, then the legacy gate. */
    method FetchData(now: DateTime, reply: Reply) returns (r: Result<Dict>, requested: bool)
      modifies processor, processor.queue
      ensures !IsMarketOpen(Some(market), now) ==>
        r == Ok([]) && !requested
        && processor.lastProcessedTime == old(processor.lastProcessedTime)
        && processor.queue.items == old(processor.queue.items)
      ensures IsMarketOpen(Some(market), now) ==> requested
      ensures IsMarketOpen(Some(market), now) ==>
        match LegacyPlan(reply, CloseMarker(market))
        case Done(out) =>
          r == out && processor.lastProcessedTime == old(processor.lastProcessedTime)
          && processor.queue.items == old(processor.queue.items)
        case Gate(ct, c) =>
          var d := LegacyDecision(old(processor.lastProcessedTime), ct, Some(c),
                                  LegacyConvert(market, symbol, timeframe, now));
          processor.lastProcessedTime == d.cursor && r == d.out
          && processor.queue.items == old(processor.queue.items) + (if d.Emits() then [d.out.value] else [])
    {
      if !IsMarketOpen(Some(market), now) {
        return Ok([]), false;
      }
      requested := true;
      var plan := LegacyPlan(reply, CloseMarker(market));
      match plan
      case Done(out) =>
        r := out;
      case Gate(ct, c) =>
        r := processor.ProcessCandleData(ct, Some(c), LegacyConvert(market, symbol, timeframe, now));
    }
  }

  /** A fetcher class of the legacy registry: its two candle fetchers, or one registered from elsewhere. */
  datatype LegacyClass = LegacyStockClass | LegacyDerivClass | LegacyOtherClass(name: string)

  /** The current registry's name for a legacy class. */
  function CurrentClass(c: LegacyClass): FetcherClass
  {
    match c
    case LegacyStockClass => StockClass
    case LegacyDerivClass => DerivClass
    case LegacyOtherClass(name) => OtherClass(name)
  }

  /** Legacy `FetcherRegistry.create_fetcher`: every class gets the short argument list. */
  function LegacyDispatch(fetchers: map<DataType, LegacyClass>, sub: SubscriptionConfig): (r: Result<(LegacyClass, FetcherArgs)>)
    ensures r.Err? <==> sub.dataType !in fetchers
    ensures r.Err? ==> r.error.ValueError?
    ensures r.Ok? ==> r.value == (fetchers[sub.dataType], CandleArgs(sub.symbol, sub.timeframe))
    ensures r.Ok? && sub.dataType != OChain ==>
      Dispatch(map k | k in fetchers :: CurrentClass(fetchers[k]), sub) == Ok((CurrentClass(r.value.0), r.value.1))
  {
    if sub.dataType !in fetchers then Err(ValueError("No fetcher registered for " + DataTypeValue(sub.dataType)))
    else Ok((fetchers[sub.dataType], CandleArgs(sub.symbol, sub.timeframe)))
  }

  /** A fetcher built by the legacy registry, or a call to a class from elsewhere. */
  datatype LegacyCreated = LegacyF(fetcher: LegacyFetcher) | LegacyOther(cls: string, args: FetcherArgs)

  /** Legacy `FetcherRegistry` */
  class LegacyFetcherRegistry {
    var fetchers: map<DataType, LegacyClass>

    constructor()
      ensures fetchers == map[]
    {
      fetchers := map[];
    }

    /** `register`: adds the entry, replacing any earlier class for the type. */
    method Register(dataType: DataType, cls: LegacyClass)
      modifies this
      ensures fetchers == old(fetchers)[dataType := cls]
    {
      fetchers := fetchers[dataType := cls];
    }

    /**
     * `create_fetcher`: the stock and derivatives classes build a legacy fetcher; a class
     * from elsewhere is called with the subscription's symbol and time frame.
     */
    method CreateFetcher(queue: Queue, sub: SubscriptionConfig) returns (r: Result<LegacyCreated>)
      ensures var d := LegacyDispatch(fetchers, sub);
        (d.Err? ==> r == Err(d.error))
        && (d.Ok? && !d.value.0.LegacyOtherClass? ==>
              r.Ok? && r.value.LegacyF? && fresh(r.value.fetcher)
              && r.value.fetcher.market == (if d.value.0 == LegacyStockClass then Stock else Derivatives)
              && r.value.fetcher.symbol == sub.symbol && r.value.fetcher.timeframe == sub.timeframe
              && r.value.fetcher.processor.queue == queue && r.value.fetcher.processor.lastProcessedTime.None?)
        && (d.Ok? && d.value.0.LegacyOtherClass? ==> r == Ok(LegacyOther(d.value.0.name, d.value.1)))
    {
      var d := LegacyDispatch(fetchers, sub);
      if d.Err? {
        return Err(d.error);
      }
      match d.value.0
      case LegacyStockClass =>
        var f := new LegacyFetcher(queue, sub.symbol, sub.timeframe, Stock);
        r := Ok(LegacyF(f));
      case LegacyDerivClass =>
        var f := new LegacyFetcher(queue, sub.symbol, sub.timeframe, Derivatives);
        r := Ok(LegacyF(f));
      case LegacyOtherClass(name) =>
        r := Ok(LegacyOther(name, d.value.1));
    }
  }

  /** Legacy `FetcherFactory`: a registry holding the stock and derivatives classes only. */
  class LegacyFetcherFactory {
    const registry: LegacyFetcherRegistry

    constructor()
      ensures fresh(registry) && registry.fetchers == map[SCandle := LegacyStockClass, DCandle := LegacyDerivClass]
    {
      registry := new LegacyFetcherRegistry();
      new;
      registry.Register(SCandle, LegacyStockClass);
      registry.Register(DCandle, LegacyDerivClass);
    }
  }

  /** Legacy `PollingManager`: all fetchers at once each cycle, results ignored, no retries. */
  class LegacyPollingManager {
    const interval: int
    const fetchers: seq<FetcherId>
    var running: bool
    var fetchCount: nat

    constructor(interval: int, fetchers: seq<FetcherId>)
      ensures this.interval == interval && this.fetchers == fetchers
      ensures !running && fetchCount == 0
    {
      this.interval := interval;
      this.fetchers := fetchers;
      running := false;
      fetchCount := 0;
    }

    /**
     * `_execute_fetch_cycle`: one outcome per fetcher, exceptions kept; the counter grows by the
     * number of fetchers whatever the outcomes.
     */
    method ExecuteFetchCycle(respond: Respond) returns (results: seq<Outcome>)
      modifies this
      ensures results == CycleResults(fetchers, respond, old(fetchCount))
      ensures fetchCount == old(fetchCount) + |fetchers| && running == old(running)
    {
      results := CycleResults(fetchers, respond, fetchCount);
      fetchCount := fetchCount + |fetchers|;
    }

    /** `start_polling` for `cycles` iterations of its loop: the counter grows by a full round each time. */
    method StartPolling(cycles: nat, respond: Respond)
      modifies this
      ensures running && fetchCount == old(fetchCount) + cycles * |fetchers|
    {
      running := true;
      for k := 0 to cycles
        invariant running && fetchCount == old(fetchCount) + k * |fetchers|
      {
        var _ := ExecuteFetchCycle(respond);
      }
    }

    /** `stop` */
    method Stop()
      modifies this
      ensures !running && fetchCount == old(fetchCount)
    {
      running := false;
    }
  }
}
