/**
 * The WebSocket client's tick-to-candle aggregation (`wsc/candle.py`): the bucket a tick
 * falls into, the OHLCV update of the open candle per symbol, the notices sent to
 * subscribers, and the manager that runs one aggregator per time frame. The clock is a
 * parameter (`now`); subscriber callbacks are recorded as notices rather than run.
 */
module WscCandle {
  import opened Wrappers
  import opened Clock
  import opened Models

  datatype TimeFrame = Min1 | Min5 | Min15 | Min30 | Hour1 | Hour4 | Day1

  /** The enum's value, as shown in logs and `to_dict`. */
  function FrameText(tf: TimeFrame): string
  {
    match tf
    case Min1 => "1m"
    case Min5 => "5m"
    case Min15 => "15m"
    case Min30 => "30m"
    case Hour1 => "1h"
    case Hour4 => "4h"
    case Day1 => "1d"
  }

  /** The length of a frame in minutes (the `timedelta` of `get_candle_progress`). */
  function FrameMinutes(tf: TimeFrame): (n: nat)
    ensures n > 0 && MinutesPerDay % n == 0
  {
    match tf
    case Min1 => 1
    case Min5 => 5
    case Min15 => 15
    case Min30 => 30
    case Hour1 => 60
    case Hour4 => 240
    case Day1 => 1440
  }

  // ----------------------------------------------------------------------------------
  // Bucket start
  // ----------------------------------------------------------------------------------

  /**
   * `CandleAggregator._get_candle_start_time`: the same date with seconds and microseconds
   * cleared; minute frames floor the minute to a multiple of the frame, the hour frame
   * clears the minute, the four-hour frame floors the hour to a multiple of 4, and the day
   * frame always answers 09:00 of the same date.
   */
  function CandleStart(tf: TimeFrame, t: DateTime): (r: DateTime)
    ensures r.Date() == t.Date() && r.second == 0 && r.micro == 0
    ensures tf == Day1 ==> r.hour == 9 && r.minute == 0
  {
    match tf
    case Min1 => t.(second := 0, micro := 0)
    case Min5 => t.(minute := (t.minute / 5) * 5, second := 0, micro := 0)
    case Min15 => t.(minute := (t.minute / 15) * 15, second := 0, micro := 0)
    case Min30 => t.(minute := (t.minute / 30) * 30, second := 0, micro := 0)
    case Hour1 => t.(minute := 0, second := 0, micro := 0)
    case Hour4 => t.(hour := (t.hour / 4) * 4, minute := 0, second := 0, micro := 0)
    case Day1 => t.(hour := 9, minute := 0, second := 0, micro := 0)
  }

  /** Flooring a bucket start again leaves it where it is. */
  lemma CandleStartIdempotent(tf: TimeFrame, t: DateTime)
    ensures CandleStart(tf, CandleStart(tf, t)) == CandleStart(tf, t)
  {
    match tf
    case Min5 => assert ((t.minute / 5) * 5) / 5 == t.minute / 5;
    case Min15 => assert ((t.minute / 15) * 15) / 15 == t.minute / 15;
    case Min30 => assert ((t.minute / 30) * 30) / 30 == t.minute / 30;
    case Hour4 => assert ((t.hour / 4) * 4) / 4 == t.hour / 4;
    case _ =>
  }

  /**
   * For every frame but the day frame, the start is a frame-aligned minute of the tick's
   * day, and the tick lies in `[start, start + frame)`.
   */
  lemma CandleStartBrackets(tf: TimeFrame, t: DateTime)
    requires t.Valid() && tf != Day1
    ensures var r := CandleStart(tf, t);
      r.Valid() && r.MinuteOfDay() % FrameMinutes(tf) == 0
      && r.MinuteOfDay() <= t.MinuteOfDay() < r.MinuteOfDay() + FrameMinutes(tf)
      && !Before(t, r) && Before(t, AddMinutes(r, FrameMinutes(tf)))
  {
    CandleStartAligned(tf, t);
    SpanBefore(CandleStart(tf, t), t, FrameMinutes(tf));
  }

  /** The start is a valid, frame-aligned minute whose frame holds the tick and ends by midnight. */
  lemma CandleStartAligned(tf: TimeFrame, t: DateTime)
    requires t.Valid() && tf != Day1
    ensures var r := CandleStart(tf, t); var f := FrameMinutes(tf);
      r.Valid() && r.MinuteOfDay() % f == 0 && r.MinuteOfDay() + f <= MinutesPerDay
      && r.MinuteOfDay() <= t.MinuteOfDay() < r.MinuteOfDay() + f
  {
    assert CandleStart(tf, t).Valid();
    match tf
    case Min1 =>
    case Min5 => AlignedCase(t, Min5, 5);
    case Min15 => AlignedCase(t, Min15, 15);
    case Min30 => AlignedCase(t, Min30, 30);
    case Hour1 => AlignedCase(t, Hour1, 60);
    case Hour4 => AlignedCase(t, Hour4, 240);
  }

  /** One frame of `CandleStartAligned`, with its length `f` as a literal. */
  lemma AlignedCase(t: DateTime, tf: TimeFrame, f: int)
    requires t.Valid() && tf != Min1 && tf != Day1 && f == FrameMinutes(tf)
    ensures var x := CandleStart(tf, t).MinuteOfDay();
      x % f == 0 && x + f <= MinutesPerDay && x <= t.MinuteOfDay() < x + f
  {
    var x := CandleStart(tf, t).MinuteOfDay();
    match tf
    case Min5 => assert x == 5 * (t.hour * 12 + t.minute / 5);
    case Min15 => assert x == 15 * (t.hour * 4 + t.minute / 15);
    case Min30 => assert x == 30 * (t.hour * 2 + t.minute / 30);
    case Hour1 => assert x == 60 * t.hour;
    case Hour4 => assert x == 240 * (t.hour / 4);
  }

  /** A minute start on the tick's day that lies at most `f - 1` minutes before it. */
  lemma SpanBefore(r: DateTime, t: DateTime, f: int)
    requires r.Valid() && t.Valid() && r.Date() == t.Date() && r.second == 0 && r.micro == 0
    requires r.MinuteOfDay() <= t.MinuteOfDay() < r.MinuteOfDay() + f <= MinutesPerDay
    ensures !Before(t, r) && Before(t, AddMinutes(r, f))
  {
    var total := r.MinuteOfDay() + f;
    if total < MinutesPerDay {
      assert AddMinutes(r, f) == r.(hour := total / 60, minute := total % 60);
    } else {
      assert total / MinutesPerDay == 1 && total % MinutesPerDay == 0;
      ShiftDaysKeepsTime(r.(hour := 0, minute := 0), 1);
    }
  }

  /**
   * The start is the only frame-aligned minute of the tick's day whose frame holds the
   * tick: any such minute is the start.
   */
  lemma CandleStartUnique(tf: TimeFrame, t: DateTime, s: DateTime)
    requires t.Valid() && tf != Day1
    requires s.Date() == t.Date() && s.second == 0 && s.micro == 0 && 0 <= s.minute < 60
    requires s.MinuteOfDay() % FrameMinutes(tf) == 0
    requires s.MinuteOfDay() <= t.MinuteOfDay() < s.MinuteOfDay() + FrameMinutes(tf)
    ensures s == CandleStart(tf, t)
  {
    CandleStartAligned(tf, t);
    var r := CandleStart(tf, t);
    FloorUnique(FrameMinutes(tf), s.MinuteOfDay(), t.MinuteOfDay());
    FloorUnique(FrameMinutes(tf), r.MinuteOfDay(), t.MinuteOfDay());
  }

  /** The one multiple of `f` in `(x - f, x]` is `x - x % f`. */
  lemma FloorUnique(f: int, s: int, x: int)
    requires f > 0 && s % f == 0 && s <= x < s + f
    ensures s == x - x % f
  {
    var a := s / f;
    var b := x / f;
    assert s == f * a;
    assert x == f * b + x % f;
    if a < b {
      MulMonotone(f, a + 1, b);
    } else if b < a {
      MulMonotone(f, b + 1, a);
    }
  }

  lemma MulMonotone(f: int, a: int, b: int)
    requires f > 0 && a <= b
    ensures f * a <= f * b
  {
    assert f * b - f * a == f * (b - a);
  }

  // ----------------------------------------------------------------------------------
  // Candles and ticks
  // ----------------------------------------------------------------------------------

  datatype Candle = Candle(symbol: string, timeframe: TimeFrame, timestamp: DateTime,
                           open: real, high: real, low: real, close: real, volume: int)

  /** The OHLC shape every candle keeps: low ≤ open, close ≤ high. */
  predicate Ordered(c: Candle)
  {
    c.low <= c.open <= c.high && c.low <= c.close <= c.high
  }

  function RealMax(a: real, b: real): real { if a >= b then a else b }
  function RealMin(a: real, b: real): real { if a <= b then a else b }
  function IntMax(a: int, b: int): int { if a >= b then a else b }

  /**
   * How a value behaves in `value <= 0`: an int or float compares as itself, a bool as 0 or 1,
   * and any other value raises TypeError.
   */
  predicate ComparesAs(v: Value, r: Result<real>)
  {
    (r.Err? <==> !(v.VInt? || v.VReal? || v.VBool?))
    && (r.Err? ==> r.error.TypeError?)
    && (v.VInt? ==> r == Ok(v.i as real))
    && (v.VReal? ==> r == Ok(v.r))
    && (v.VBool? ==> r == Ok(if v.b then 1.0 else 0.0))
  }

  /**
   * `tick_data.get("current_price", tick_data.get("price", 0.0))`, compared with 0: an int,
   * float or bool compares as a number; any other value makes `price <= 0` raise TypeError.
   */
  function TickPrice(tick: Dict): (r: Result<real>)
    ensures Get(tick, "current_price") == Some(VReal(1.0)) ==> r == Ok(1.0)
    ensures Get(tick, "current_price").Some? ==> ComparesAs(Get(tick, "current_price").value, r)
    ensures Get(tick, "current_price").None? && Get(tick, "price").Some? ==> ComparesAs(Get(tick, "price").value, r)
    ensures Get(tick, "current_price").None? && Get(tick, "price").None? ==> r == Ok(0.0)
  {
    var v := if Get(tick, "current_price").Some? then Get(tick, "current_price").value
             else Get(tick, "price").GetOr(VReal(0.0));
    match v
    case VInt(i) => Ok(i as real)
    case VReal(x) => Ok(x)
    case VBool(b) => Ok(if b then 1.0 else 0.0)
    case _ => Err(TypeError("'<=' not supported for the tick price"))
  }

  /** `tick_data.get("code", "UNKNOWN")` and `tick_data.get("volume", 0)`. */
  function TickKey(tick: Dict): (r: Result<(string, int)>)
    ensures Get(tick, "code").None? && Get(tick, "volume").None? ==> r == Ok(("UNKNOWN", 0))
    ensures var code := Get(tick, "code"); var volume := Get(tick, "volume");
      (r.Ok? <==> (code.None? || code.value.VStr?) && (volume.None? || volume.value.VInt?))
      && (r.Err? ==> r.error.TypeError?)
      && (r.Ok? && code.Some? ==> r.value.0 == code.value.s)
      && (r.Ok? && code.None? ==> r.value.0 == "UNKNOWN")
      && (r.Ok? && volume.Some? ==> r.value.1 == volume.value.i)
      && (r.Ok? && volume.None? ==> r.value.1 == 0)
  {
    var code := Get(tick, "code").GetOr(VStr("UNKNOWN"));
    var volume := Get(tick, "volume").GetOr(VInt(0));
    if !code.VStr? then Err(TypeError("tick code is not a string"))
    else if !volume.VInt? then Err(TypeError("tick volume is not an int"))
    else Ok((code.s, volume.i))
  }

  /**
   * The candle a positive-price tick leaves for its symbol: a fresh candle with
   * O = H = L = C = price when there is none or it belongs to another bucket; otherwise
   * the open candle with high raised, low lowered, close replaced and volume maximised.
   */
  function Fold(tf: TimeFrame, current: Option<Candle>, symbol: string, price: real, volume: int,
                start: DateTime): (c: Candle)
    ensures c.timestamp == start && c.close == price && c.low <= price <= c.high
    ensures Opens(current, start) ==>
      c == Candle(symbol, tf, start, price, price, price, price, volume) && Ordered(c)
    ensures !Opens(current, start) ==>
      c.symbol == current.value.symbol && c.timeframe == current.value.timeframe
      && c.open == current.value.open && c.low <= current.value.low && current.value.high <= c.high
      && current.value.volume <= c.volume && volume <= c.volume
      && (Ordered(current.value) ==> Ordered(c))
  {
    if Opens(current, start) then Candle(symbol, tf, start, price, price, price, price, volume)
    else
      var k := current.value;
      k.(high := RealMax(k.high, price), low := RealMin(k.low, price), close := price,
         volume := IntMax(k.volume, volume))
  }

  /** A tick opens a new candle: none is open for its symbol, or the open one is in another bucket. */
  predicate Opens(current: Option<Candle>, start: DateTime)
  {
    current.None? || current.value.timestamp != start
  }

  /**
   * The candle a run of `(price, volume)` ticks of one symbol and one bucket builds from
   * nothing, folded in arrival order.
   */
  function Replay(tf: TimeFrame, symbol: string, start: DateTime, ticks: seq<(real, int)>): Option<Candle>
    decreases |ticks|
  {
    if |ticks| == 0 then None
    else
      var last := ticks[|ticks| - 1];
      Some(Fold(tf, Replay(tf, symbol, start, ticks[..|ticks| - 1]), symbol, last.0, last.1, start))
  }

  /**
   * A bucket's candle is its ticks' OHLCV: open is the first price, close the last, high
   * and low the largest and smallest prices, and volume the largest volume seen.
   */
  lemma {:induction false} ReplayOhlcv(tf: TimeFrame, symbol: string, start: DateTime, ticks: seq<(real, int)>)
    requires |ticks| > 0
    ensures Replay(tf, symbol, start, ticks).Some?
    ensures var c := Replay(tf, symbol, start, ticks).value;
      c.symbol == symbol && c.timeframe == tf && c.timestamp == start && Ordered(c)
      && c.open == ticks[0].0 && c.close == ticks[|ticks| - 1].0
      && (forall i | 0 <= i < |ticks| :: c.low <= ticks[i].0 <= c.high && ticks[i].1 <= c.volume)
      && (exists i | 0 <= i < |ticks| :: c.high == ticks[i].0)
      && (exists i | 0 <= i < |ticks| :: c.low == ticks[i].0)
      && (exists i | 0 <= i < |ticks| :: c.volume == ticks[i].1)
    decreases |ticks|
  {
    var n := |ticks|;
    var init := ticks[..n - 1];
    var last := ticks[n - 1];
    var c := Replay(tf, symbol, start, ticks).value;
    if n == 1 {
      assert Replay(tf, symbol, start, init) == None;
      assert c == Candle(symbol, tf, start, last.0, last.0, last.0, last.0, last.1);
    } else {
      ReplayOhlcv(tf, symbol, start, init);
      var k := Replay(tf, symbol, start, init).value;
      assert c == Fold(tf, Some(k), symbol, last.0, last.1, start);
      forall i | 0 <= i < n ensures c.low <= ticks[i].0 <= c.high && ticks[i].1 <= c.volume {
        if i < n - 1 {
          assert ticks[i] == init[i];
        }
      }
      if c.high != last.0 {
        var j :| 0 <= j < n - 1 && k.high == init[j].0;
        assert c.high == ticks[j].0;
      }
      if c.low != last.0 {
        var j :| 0 <= j < n - 1 && k.low == init[j].0;
        assert c.low == ticks[j].0;
      }
      if c.volume != last.1 {
        var j :| 0 <= j < n - 1 && k.volume == init[j].1;
        assert c.volume == ticks[j].1;
      }
      assert ticks[0] == init[0];
    }
  }

  // ----------------------------------------------------------------------------------
  // One aggregator step
  // ----------------------------------------------------------------------------------

  /** A subscriber, by name; its callbacks are outside the model. */
  type Subscriber = string

  datatype NoticeKind = CandleCompleted | CandleUpdated

  /** A call of `on_candle_completed` or `on_candle_updated` on one subscriber. */
  datatype Notice = Notice(subscriber: Subscriber, kind: NoticeKind, candle: Candle)

  /** One notice of `kind` about `c` to each subscriber, in subscription order. */
  function Broadcast(subs: seq<Subscriber>, kind: NoticeKind, c: Candle): (ns: seq<Notice>)
    ensures |ns| == |subs| && forall i | 0 <= i < |subs| :: ns[i] == Notice(subs[i], kind, c)
  {
    seq(|subs|, i requires 0 <= i < |subs| => Notice(subs[i], kind, c))
  }

  /** What one `process_tick` returns, the open candles it leaves, and the notices it sends. */
  datatype Outcome = Outcome(result: Result<Option<Candle>>, candles: map<string, Candle>, notices: seq<Notice>)

  /** `CandleAggregator.process_tick` on the open candles `cs`, with the clock reading `now`. */
  function Step(tf: TimeFrame, subs: seq<Subscriber>, cs: map<string, Candle>, tick: Dict, now: DateTime): Outcome
  {
    match TickPrice(tick)
    case Err(e) => Outcome(Err(e), cs, [])
    case Ok(price) =>
      if price <= 0.0 then Outcome(Ok(None), cs, [])
      else
        match TickKey(tick)
        case Err(e) => Outcome(Err(e), cs, [])
        case Ok(key) =>
          var symbol := key.0;
          var start := CandleStart(tf, now);
          var current := if symbol in cs then Some(cs[symbol]) else None;
          var c := Fold(tf, current, symbol, price, key.1, start);
          var completed := if current.Some? && current.value.timestamp != start then current else None;
          Outcome(Ok(completed), cs[symbol := c],
                  (if completed.Some? then Broadcast(subs, CandleCompleted, completed.value) else [])
                  + Broadcast(subs, CandleUpdated, c))
  }

  /**
   * What a step promises: a rejected tick (a price that does not compare, a price ≤ 0) changes
   * nothing; otherwise only the tick's symbol changes, the previous candle is returned exactly
   * when one was open in another bucket, and the symbol's candle is the folded one.
   */
  lemma StepSpec(tf: TimeFrame, subs: seq<Subscriber>, cs: map<string, Candle>, tick: Dict, now: DateTime)
    ensures var o := Step(tf, subs, cs, tick, now);
      (o.result.Err? <==> TickPrice(tick).Err? || (TickPrice(tick).value > 0.0 && TickKey(tick).Err?))
      && (o.result.Err? ==> o.candles == cs && o.notices == [])
      && (TickPrice(tick).Ok? && TickPrice(tick).value <= 0.0 ==>
            o.result == Ok(None) && o.candles == cs && o.notices == [])
    ensures var o := Step(tf, subs, cs, tick, now);
      TickPrice(tick).Ok? && TickPrice(tick).value > 0.0 && TickKey(tick).Ok? ==>
        var symbol := TickKey(tick).value.0;
        var start := CandleStart(tf, now);
        o.candles.Keys == cs.Keys + {symbol}
        && (forall s | s in cs && s != symbol :: o.candles[s] == cs[s])
        && (o.result.value.Some? <==> symbol in cs && cs[symbol].timestamp != start)
        && (o.result.value.Some? ==> o.result.value.value == cs[symbol])
        && o.candles[symbol].timestamp == start && o.candles[symbol].close == TickPrice(tick).value
        && |o.notices| == (if o.result.value.Some? then 2 else 1) * |subs|
  {
  }

  /** The open candles of an aggregator: each under its own symbol, in its frame, aligned, ordered. */
  predicate WellKept(tf: TimeFrame, cs: map<string, Candle>)
  {
    forall s | s in cs ::
      cs[s].symbol == s && cs[s].timeframe == tf && Ordered(cs[s])
      && CandleStart(tf, cs[s].timestamp) == cs[s].timestamp
  }

  /** Every step keeps the open candles well kept. */
  lemma StepKeepsWellKept(tf: TimeFrame, subs: seq<Subscriber>, cs: map<string, Candle>, tick: Dict, now: DateTime)
    requires WellKept(tf, cs)
    ensures WellKept(tf, Step(tf, subs, cs, tick, now).candles)
  {
    CandleStartIdempotent(tf, now);
  }

  // ----------------------------------------------------------------------------------
  // CandleAggregator
  // ----------------------------------------------------------------------------------

  class CandleAggregator {
    const timeframe: TimeFrame
    var subscribers: seq<Subscriber>
    /** `current_candles`: symbol -> the candle in progress. */
    var currentCandles: map<string, Candle>
    /** The subscriber calls made so far. */
    var notices: seq<Notice>

    predicate Valid()
      reads this
    {
      WellKept(timeframe, currentCandles)
    }

    /** `CandleAggregator(timeframe, subscribers)`: a missing list is the empty one. */
    constructor(tf: TimeFrame, subs: seq<Subscriber>)
      ensures Valid() && timeframe == tf && subscribers == subs
      ensures currentCandles == map[] && notices == []
    {
      timeframe := tf;
      subscribers := subs;
      currentCandles := map[];
      notices := [];
    }

    /** `add_subscriber`: appended after the existing ones. */
    method AddSubscriber(s: Subscriber)
      modifies this
      ensures subscribers == old(subscribers) + [s]
      ensures currentCandles == old(currentCandles) && notices == old(notices)
    {
      subscribers := subscribers + [s];
    }

    /**
     * `process_tick`: the outcome of `Step` on the candles and subscribers before the call.
     * An exception a subscriber raises is caught and logged, so every notice is sent.
     */
    method ProcessTick(tick: Dict, now: DateTime) returns (r: Result<Option<Candle>>)
      requires Valid()
      modifies this
      ensures Valid()
      ensures var o := Step(timeframe, old(subscribers), old(currentCandles), tick, now);
        r == o.result && currentCandles == o.candles && notices == old(notices) + o.notices
      ensures subscribers == old(subscribers)
    {
      StepKeepsWellKept(timeframe, subscribers, currentCandles, tick, now);
      var price :- TickPrice(tick);
      if price <= 0.0 {
        return Ok(None);
      }
      var key :- TickKey(tick);
      var symbol := key.0;
      var volume := key.1;
      var start := CandleStart(timeframe, now);
      var current := if symbol in currentCandles then Some(currentCandles[symbol]) else None;
      var completed: Option<Candle> := None;
      if current.Some? && current.value.timestamp != start {
        completed := current;
        Notify(CandleCompleted, current.value);
      }
      if symbol !in currentCandles || (current.Some? && current.value.timestamp != start) {
        currentCandles := currentCandles[symbol := Candle(symbol, timeframe, start, price, price, price, price, volume)];
      } else {
        var candle := currentCandles[symbol];
        currentCandles := currentCandles[symbol := candle.(high := RealMax(candle.high, price),
                                                            low := RealMin(candle.low, price),
                                                            close := price,
                                                            volume := IntMax(candle.volume, volume))];
      }
      Notify(CandleUpdated, currentCandles[symbol]);
      r := Ok(completed);
    }

    /** The loop over the subscribers: one call each, in order. */
    method Notify(kind: NoticeKind, c: Candle)
      modifies this
      ensures notices == old(notices) + Broadcast(subscribers, kind, c)
      ensures subscribers == old(subscribers) && currentCandles == old(currentCandles)
    {
      var i := 0;
      while i < |subscribers|
        invariant 0 <= i <= |subscribers|
        invariant subscribers == old(subscribers) && currentCandles == old(currentCandles)
        invariant notices == old(notices) + Broadcast(subscribers[..i], kind, c)
      {
        notices := notices + [Notice(subscribers[i], kind, c)];
        i := i + 1;
      }
      assert subscribers[..i] == subscribers;
    }

    /** `get_current_candle`: the symbol's candle in progress, which is under that symbol and ordered. */
    function GetCurrentCandle(symbol: string): (r: Option<Candle>)
      reads this
      ensures r.Some? <==> symbol in currentCandles
      ensures Valid() && r.Some? ==> r.value.symbol == symbol && r.value.timeframe == timeframe && Ordered(r.value)
    {
      if symbol in currentCandles then Some(currentCandles[symbol]) else None
    }

    /** `get_all_current_candles`: a copy of the map; every candle in it is well kept. */
    function GetAllCurrentCandles(): (r: map<string, Candle>)
      reads this
      ensures r.Keys == currentCandles.Keys
      ensures Valid() ==> WellKept(timeframe, r)
    {
      currentCandles
    }
  }

  // ----------------------------------------------------------------------------------
  // CandleManager
  // ----------------------------------------------------------------------------------

  /**
   * Aggregator `a` has taken the tick since the previous state: its candles and notices are
   * those of `Step` from its previous candles and subscribers, and `res` is the completed
   * candle it returned, or None where it raised.
   */
  twostate predicate Advanced(a: CandleAggregator, tick: Dict, now: DateTime, new res: Option<Candle>)
    reads a
  {
    var o := Step(a.timeframe, old(a.subscribers), old(a.currentCandles), tick, now);
    res == (if o.result.Ok? then o.result.value else None)
    && a.currentCandles == o.candles && a.notices == old(a.notices) + o.notices
    && a.subscribers == old(a.subscribers)
  }

  class CandleManager {
    /** `aggregators`: time frame -> its aggregator. */
    var aggregators: map<TimeFrame, CandleAggregator>

    /** Each aggregator sits under its own frame (so no two frames share one) and is valid. */
    predicate Valid()
      reads this, aggregators.Values
    {
      forall tf | tf in aggregators :: aggregators[tf].timeframe == tf && aggregators[tf].Valid()
    }

    constructor()
      ensures Valid() && aggregators == map[]
    {
      aggregators := map[];
    }

    /**
     * `add_timeframe`: a new frame gets a fresh aggregator with the given subscribers; an
     * existing frame keeps its aggregator, which appends the subscribers one by one.
     */
    method AddTimeframe(tf: TimeFrame, subs: seq<Subscriber>)
      requires Valid()
      modifies this, if tf in aggregators then {aggregators[tf]} else {}
      ensures Valid()
      ensures aggregators.Keys == old(aggregators.Keys) + {tf}
      ensures forall t | t in old(aggregators) :: aggregators[t] == old(aggregators[t])
      ensures tf in old(aggregators) ==>
        aggregators[tf].subscribers == old(aggregators[tf].subscribers) + subs
        && aggregators[tf].currentCandles == old(aggregators[tf].currentCandles)
        && aggregators[tf].notices == old(aggregators[tf].notices)
      ensures tf !in old(aggregators) ==>
        fresh(aggregators[tf]) && aggregators[tf].subscribers == subs
        && aggregators[tf].currentCandles == map[] && aggregators[tf].notices == []
    {
      if tf !in aggregators {
        var a := new CandleAggregator(tf, subs);
        aggregators := aggregators[tf := a];
      } else {
        var a := aggregators[tf];
        var i := 0;
        while i < |subs|
          invariant 0 <= i <= |subs|
          invariant aggregators == old(aggregators)
          invariant a.subscribers == old(a.subscribers) + subs[..i]
          invariant a.currentCandles == old(a.currentCandles) && a.notices == old(a.notices)
        {
          a.AddSubscriber(subs[i]);
          assert subs[..i + 1] == subs[..i] + [subs[i]];
          i := i + 1;
        }
        assert subs[..i] == subs;
      }
    }

    /** `add_subscriber_to_timeframe`: appends to a registered frame; an unknown frame only logs. */
    method AddSubscriberToTimeframe(tf: TimeFrame, s: Subscriber)
      requires Valid()
      modifies if tf in aggregators then {aggregators[tf]} else {}
      ensures Valid()
      ensures tf in aggregators ==>
        aggregators[tf].subscribers == old(aggregators[tf].subscribers) + [s]
        && aggregators[tf].currentCandles == old(aggregators[tf].currentCandles)
    {
      if tf in aggregators {
        aggregators[tf].AddSubscriber(s);
      }
    }

    /**
     * `process_tick`: every registered frame's aggregator takes the tick; the answer holds an
     * entry for every frame, the completed candle or None, and None where the aggregator raised.
     */
    method ProcessTick(tick: Dict, now: DateTime) returns (results: map<TimeFrame, Option<Candle>>)
      requires Valid()
      modifies aggregators.Values
      ensures Valid()
      ensures results.Keys == aggregators.Keys
      ensures forall tf | tf in aggregators :: Advanced(aggregators[tf], tick, now, results[tf])
    {
      results := map[];
      var remaining := aggregators.Keys;
      while remaining != {}
        invariant remaining <= aggregators.Keys
        invariant results.Keys == aggregators.Keys - remaining
        invariant Valid()
        invariant forall tf | tf in remaining :: unchanged(aggregators[tf])
        invariant forall tf | tf in results :: Advanced(aggregators[tf], tick, now, results[tf])
        decreases remaining
      {
        var tf :| tf in remaining;
        var a := aggregators[tf];
        var r := a.ProcessTick(tick, now);
        results := results[tf := if r.Ok? then r.value else None];
        remaining := remaining - {tf};
      }
    }

    /** `get_current_candle(timeframe, symbol)`: None for an unregistered frame. */
    function GetCurrentCandle(tf: TimeFrame, symbol: string): (r: Option<Candle>)
      reads this, aggregators.Values
      ensures r.Some? <==> tf in aggregators && symbol in aggregators[tf].currentCandles
      ensures Valid() && r.Some? ==> r.value.symbol == symbol && r.value.timeframe == tf && Ordered(r.value)
    {
      if tf in aggregators then aggregators[tf].GetCurrentCandle(symbol) else None
    }

    /** `get_all_current_candles(timeframe)`: the empty map for an unregistered frame. */
    function GetAllCurrentCandles(tf: TimeFrame): (r: map<string, Candle>)
      reads this, aggregators.Values
      ensures tf !in aggregators ==> r == map[]
      ensures Valid() ==> WellKept(tf, r)
    {
      if tf in aggregators then aggregators[tf].GetAllCurrentCandles() else map[]
    }
  }
}
