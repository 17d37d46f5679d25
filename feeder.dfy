/**
 * The dolpha1 minute-bar feeder (src/strategies/dolpha1/feeder.py): the realtime collector's
 * cursor and its choice of the completed bar, the conversion of a vendor bar into a table
 * row, the historical bar filter, the paged download of one trading day with its
 * de-duplication, and the daily completeness verification. The vendor, the database and the
 * clock are parameters: an HTTP reply, a map of per-day row counts, the KST wall clock.
 */
module Feeder {
  import opened Wrappers
  import opened Text
  import opened Clock
  import opened Models
  import opened Fetchers

  /** One row of the dolpha1 table. */
  datatype FeedRecord = FeedRecord(timestamp: DateTime, symbol: string,
                                   open: real, high: real, low: real, close: real, volume: int)

  /** The `stck_cntg_hour` of the session's closing bar. */
  const CloseTime: string := "154500"

  /** The close-marker prefix the realtime selector looks for. */
  const CloseMarkerPrefix: string := "1545"

  /**
   * `datetime.strptime(f"{date}{time}", "%Y%m%d%H%M%S")`: a missing part prints as "None",
   * which never parses, so it fails like malformed text (ValueError).
   */
  function BarStamp(date: Option<string>, time: Option<string>): (r: Result<DateTime>)
    ensures r.Ok? <==> date.Some? && time.Some? && ParseCompact(date.value + time.value).Some?
    ensures r.Ok? ==> Some(r.value) == ParseCompact(date.value + time.value) && r.value.Valid()
  {
    if date.None? || time.None? then Err(ValueError("time data does not match format"))
    else match ParseCompact(date.value + time.value)
      case None => Err(ValueError("time data does not match format"))
      case Some(dt) => Ok(dt)
  }

  /**
   * The row built from a bar once its timestamp is known: float prices and an integer volume,
   * each defaulting to 0 when absent; the first malformed field raises ValueError.
   */
  function RowOf(symbol: string, dt: DateTime, bar: Bar): (r: Result<FeedRecord>)
    ensures r.Ok? <==> RealField(bar, "futs_oprc").Ok? && RealField(bar, "futs_hgpr").Ok?
                       && RealField(bar, "futs_lwpr").Ok? && RealField(bar, "futs_prpr").Ok?
                       && IntField(bar, "cntg_vol").Ok?
    ensures r.Ok? ==> r.value.timestamp == dt && r.value.symbol == symbol
                      && r.value.open == RealField(bar, "futs_oprc").value
                      && r.value.high == RealField(bar, "futs_hgpr").value
                      && r.value.low == RealField(bar, "futs_lwpr").value
                      && r.value.close == RealField(bar, "futs_prpr").value
                      && r.value.volume == IntField(bar, "cntg_vol").value
  {
    var o :- RealField(bar, "futs_oprc");
    var h :- RealField(bar, "futs_hgpr");
    var l :- RealField(bar, "futs_lwpr");
    var c :- RealField(bar, "futs_prpr");
    var v :- IntField(bar, "cntg_vol");
    Ok(FeedRecord(dt, symbol, o, h, l, c, v))
  }

  // ----------------------------------------------------------------------------------
  // Realtime collection
  // ----------------------------------------------------------------------------------

  /**
   * `_process_candle`: the bar's own date and time, moved one minute on (the bar is stamped
   * with the minute it closes) unless its time is exactly the session close.
   */
  function ProcessCandle(symbol: string, bar: Bar): (r: Result<FeedRecord>)
  {
    var time := Field(bar, "stck_cntg_hour");
    var dt :- BarStamp(Field(bar, "stck_bsop_date"), time);
    RowOf(symbol, if time != Some(CloseTime) then AddMinutes(dt, 1) else dt, bar)
  }

  /** Two-digit text names exactly one number below 100. */
  lemma PadTwoIs(n: int, text: string, v: int)
    requires 0 <= n < 100 && Pad(n, 2) == text && DigitsValue(text) == v
    ensures n == v
  {
    PadTwo(n);
  }

  /** The three two-digit fields of "154500" and their values. */
  lemma CloseTimeFields()
    ensures CloseTime == "15" + "45" + "00"
    ensures DigitsValue("15") == 15 && DigitsValue("45") == 45 && DigitsValue("00") == 0
  {
  }

  /** The two-digit texts of 15, 45 and 0. */
  lemma PadCloseFields()
    ensures Pad(15, 2) == "15" && Pad(45, 2) == "45" && Pad(0, 2) == "00"
  {
  }

  /** Two texts of length two each, laid end to end, are equal only field by field. */
  lemma SplitThree(a: string, b: string, c: string, x: string, y: string, z: string)
    requires |a| == |b| == |c| == |x| == |y| == |z| == 2
    requires a + b + c == x + y + z
    ensures a == x && b == y && c == z
  {
    assert a == (a + b + c)[..2] && x == (x + y + z)[..2];
    assert b == (a + b + c)[2..4] && y == (x + y + z)[2..4];
    assert c == (a + b + c)[4..] && z == (x + y + z)[4..];
  }

  /** The compact time text names 15:45:00 exactly when the clock reads 15:45:00. */
  lemma HmsTextIsClose(dt: DateTime)
    requires dt.Valid()
    ensures HmsText(dt) == CloseTime <==> dt.hour == 15 && dt.minute == 45 && dt.second == 0
  {
    var h, m, sec := Pad(dt.hour, 2), Pad(dt.minute, 2), Pad(dt.second, 2);
    assert HmsText(dt) == h + m + sec;
    CloseTimeFields();
    if HmsText(dt) == CloseTime {
      SplitThree(h, m, sec, "15", "45", "00");
      PadTwoIs(dt.hour, "15", 15);
      PadTwoIs(dt.minute, "45", 45);
      PadTwoIs(dt.second, "00", 0);
    }
    if dt.hour == 15 && dt.minute == 45 && dt.second == 0 {
      PadCloseFields();
    }
  }

  /**
   * A bar carrying the compact text of a whole-second time converts to a row stamped one
   * minute after that time, strictly later, except for the 15:45:00 closing bar, which keeps
   * its own time.
   */
  lemma ProcessCandleStamp(symbol: string, bar: Bar, dt: DateTime)
    requires IsoRange(dt) && dt.micro == 0
    requires Field(bar, "stck_bsop_date") == Some(YmdText(dt)) && Field(bar, "stck_cntg_hour") == Some(HmsText(dt))
    ensures ProcessCandle(symbol, bar).Ok? <==> RowOf(symbol, dt, bar).Ok?
    ensures ProcessCandle(symbol, bar).Ok? ==>
      var t := ProcessCandle(symbol, bar).value.timestamp;
      (dt.hour == 15 && dt.minute == 45 && dt.second == 0 ==> t == dt)
      && (!(dt.hour == 15 && dt.minute == 45 && dt.second == 0) ==> t == AddMinutes(dt, 1) && Before(dt, t))
  {
    ParseCompactOfText(dt);
    HmsTextIsClose(dt);
    AddOneMinuteLater(dt);
  }

  /** What one poll of `_fetch_latest_candle` leaves behind: the cursor and the result. */
  datatype Poll = Poll(cursor: Option<string>, out: Result<Option<FeedRecord>>)

  /** Python truthiness of an optional string: present and non-empty. */
  predicate FilledIn(s: Option<string>)
  {
    s.Some? && s.value != ""
  }

  /**
   * `_fetch_latest_candle` after the request: a transport failure, `rt_cd` other than "0" or
   * no rows give None with the cursor untouched; so does a freshest time not past the cursor.
   * Otherwise the cursor becomes the freshest time (also on the first run) before the
   * completed bar is chosen; a chosen bar from another day gives None.
   */
  function LatestCandle(symbol: string, cursor: Option<string>, today: string, reply: Reply): (r: Poll)
    ensures reply.HttpFailure? ==> r == Poll(cursor, Ok(None))
    ensures reply.Json? && (reply.body.rtCd != Some("0") || !HasRows(reply.body.output2)) ==> r == Poll(cursor, Ok(None))
    ensures r.out.Ok? && r.out.value.Some? ==>
      reply.Json? && HasRows(reply.body.output2)
      && var candles := reply.body.output2.value;
         var freshest := Field(candles[0], "stck_cntg_hour");
         freshest.Some? && r.cursor == freshest
         && (FilledIn(cursor) ==> !LessEq(freshest.value, cursor.value))
         && var bar := SelectCompleted(candles, freshest.value, CloseMarkerPrefix).value;
            Field(bar, "stck_bsop_date") == Some(today) && ProcessCandle(symbol, bar) == Ok(r.out.value.value)
    ensures reply.Json? && reply.body.rtCd == Some("0") && HasRows(reply.body.output2) ==>
      var candles := reply.body.output2.value;
      var freshest := Field(candles[0], "stck_cntg_hour");
      (freshest.None? && FilledIn(cursor) ==> r == Poll(cursor, Err(TypeError("'>=' not supported"))))
      && (freshest.None? && !FilledIn(cursor) ==> r == Poll(None, Err(AttributeError("startswith"))))
      && (freshest.Some? && FilledIn(cursor) && LessEq(freshest.value, cursor.value) ==> r == Poll(cursor, Ok(None)))
      && (freshest.Some? && !(FilledIn(cursor) && LessEq(freshest.value, cursor.value)) ==>
            r.cursor == freshest
            && var bar := SelectCompleted(candles, freshest.value, CloseMarkerPrefix).value;
               var rec := ProcessCandle(symbol, bar);
               (|bar| == 0 || Field(bar, "stck_bsop_date") != Some(today) ==> r.out == Ok(None))
               && (|bar| > 0 && Field(bar, "stck_bsop_date") == Some(today) ==>
                     (rec.Err? ==> r.out == Err(rec.error)) && (rec.Ok? ==> r.out == Ok(Some(rec.value)))))
  {
    match reply
    case HttpFailure(_) => Poll(cursor, Ok(None))
    case Json(body) =>
      if body.rtCd != Some("0") || !HasRows(body.output2) then Poll(cursor, Ok(None))
      else
        var candles := body.output2.value;
        var current := Field(candles[0], "stck_cntg_hour");
        if FilledIn(cursor) && current.None? then Poll(cursor, Err(TypeError("'>=' not supported")))
        else if FilledIn(cursor) && LessEq(current.value, cursor.value) then Poll(cursor, Ok(None))
        else if current.None? then Poll(None, Err(AttributeError("startswith")))
        else
          var completed := SelectCompleted(candles, current.value, CloseMarkerPrefix).value;
          if |completed| == 0 || Field(completed, "stck_bsop_date") != Some(today) then Poll(current, Ok(None))
          else match ProcessCandle(symbol, completed)
            case Err(e) => Poll(current, Err(e))
            case Ok(rec) => Poll(current, Ok(Some(rec)))
  }

  /** The cursor never moves back: a set cursor is only ever replaced by a strictly later time. */
  lemma CursorMonotone(symbol: string, cursor: Option<string>, today: string, reply: Reply)
    ensures var r := LatestCandle(symbol, cursor, today, reply);
      FilledIn(cursor) && r.cursor != cursor ==> r.cursor.Some? && Less(cursor.value, r.cursor.value)
  {
    var r := LatestCandle(symbol, cursor, today, reply);
    if FilledIn(cursor) && r.cursor != cursor {
      LessTrichotomy(cursor.value, r.cursor.value);
    }
  }

  /** `RealtimeDataCollector`: the symbol it polls and the time of the last freshest bar seen. */
  class RealtimeCollector {
    const symbol: string
    var lastProcessedTime: Option<string>

    constructor(symbol: string)
      ensures this.symbol == symbol && lastProcessedTime.None?
    {
      this.symbol := symbol;
      lastProcessedTime := None;
    }

    /** `_fetch_latest_candle`, with the KST wall clock and the vendor's reply as inputs. */
    method FetchLatestCandle(nowKst: DateTime, reply: Reply) returns (r: Result<Option<FeedRecord>>)
      modifies this
      ensures Poll(lastProcessedTime, r) == LatestCandle(symbol, old(lastProcessedTime), YmdText(nowKst), reply)
    {
      if reply.HttpFailure? || reply.body.rtCd != Some("0") || !HasRows(reply.body.output2) {
        return Ok(None);
      }
      var candles := reply.body.output2.value;
      var current := Field(candles[0], "stck_cntg_hour");
      if FilledIn(lastProcessedTime) {
        if current.None? {
          return Err(TypeError("'>=' not supported"));
        }
        if LessEq(current.value, lastProcessedTime.value) {
          return Ok(None);
        }
      }
      lastProcessedTime := current;
      if current.None? {
        return Err(AttributeError("startswith"));
      }
      var completed := SelectCompleted(candles, current.value, CloseMarkerPrefix).value;
      if |completed| > 0 {
        if Field(completed, "stck_bsop_date") != Some(YmdText(nowKst)) {
          return Ok(None);
        }
        var rec :- ProcessCandle(symbol, completed);
        return Ok(Some(rec));
      }
      return Ok(None);
    }
  }

  // ----------------------------------------------------------------------------------
  // Historical bars
  // ----------------------------------------------------------------------------------

  /** `dt.hour * 100 + dt.minute` */
  function HourMin(dt: DateTime): int
  {
    dt.hour * 100 + dt.minute
  }

  /**
   * One pass of `_process_historical_candles`' loop body: bars without a date or time, bars
   * that do not parse, bars outside 08:45-15:45 and bars with a malformed price are skipped
   * (None); the rest are stamped one minute on, except at 15:45.
   */
  function HistoricalRecord(symbol: string, bar: Bar): (r: Option<FeedRecord>)
  {
    var date := Field(bar, "stck_bsop_date");
    var time := Field(bar, "stck_cntg_hour");
    if !FilledIn(date) || !FilledIn(time) then None
    else match BarStamp(date, time)
      case Err(_) => None
      case Ok(dt) =>
        if !(845 <= HourMin(dt) <= 1545) then None
        else match RowOf(symbol, if HourMin(dt) != 1545 then AddMinutes(dt, 1) else dt, bar)
          case Err(_) => None
          case Ok(rec) => Some(rec)
  }

  /**
   * A kept bar's row falls on the bar's own date, between 08:46 and 15:45 inclusive, one
   * minute after the bar's time, or at the bar's time when that is 15:45.
   */
  lemma HistoricalWindow(symbol: string, bar: Bar)
    requires HistoricalRecord(symbol, bar).Some?
    ensures var dt := BarStamp(Field(bar, "stck_bsop_date"), Field(bar, "stck_cntg_hour"));
      var t := HistoricalRecord(symbol, bar).value.timestamp;
      dt.Ok? && 845 <= HourMin(dt.value) <= 1545
      && t.Valid() && t.Date() == dt.value.Date() && t.second == dt.value.second
      && 8 * 60 + 46 <= t.MinuteOfDay() <= 15 * 60 + 45
      && (HourMin(dt.value) == 1545 ==> t == dt.value)
      && (HourMin(dt.value) != 1545 ==> t.MinuteOfDay() == dt.value.MinuteOfDay() + 1)
  {
    var dt := BarStamp(Field(bar, "stck_bsop_date"), Field(bar, "stck_cntg_hour")).value;
    if HourMin(dt) != 1545 {
      var total := dt.MinuteOfDay() + 1;
      assert total < MinutesPerDay;
      assert AddMinutes(dt, 1) == dt.(hour := total / 60, minute := total % 60);
    }
  }

  /** A kept bar as a list of rows: one row or none. */
  function Kept(r: Option<FeedRecord>): seq<FeedRecord>
  {
    if r.Some? then [r.value] else []
  }

  /** The rows `_process_historical_candles` returns: the kept bars' rows, in input order. */
  function HistoricalRecords(symbol: string, candles: seq<Bar>): (r: seq<FeedRecord>)
    ensures |r| <= |candles|
  {
    if |candles| == 0 then []
    else HistoricalRecords(symbol, candles[..|candles| - 1]) + Kept(HistoricalRecord(symbol, candles[|candles| - 1]))
  }

  /** The positions of the kept bars, ascending. */
  function KeptIndices(symbol: string, candles: seq<Bar>): seq<nat>
  {
    if |candles| == 0 then []
    else KeptIndices(symbol, candles[..|candles| - 1])
         + (if HistoricalRecord(symbol, candles[|candles| - 1]).Some? then [|candles| - 1] else [])
  }

  /** The kept positions ascend, lie in range, and are exactly the bars whose loop body yields a row. */
  lemma {:induction false} KeptIndicesExact(symbol: string, candles: seq<Bar>)
    ensures var idx := KeptIndices(symbol, candles);
      (forall k | 0 <= k < |idx| :: idx[k] < |candles|)
      && (forall k, l | 0 <= k < l < |idx| :: idx[k] < idx[l])
      && (forall j | 0 <= j < |candles| :: HistoricalRecord(symbol, candles[j]).Some? <==> j in idx)
  {
    if |candles| > 0 {
      var n := |candles| - 1;
      var init := candles[..n];
      KeptIndicesExact(symbol, init);
      assert forall j | 0 <= j < n :: init[j] == candles[j];
    }
  }

  /** The k-th row is the row of the k-th kept bar, so the rows are the kept bars' rows in input order. */
  lemma {:induction false} HistoricalRecordsAt(symbol: string, candles: seq<Bar>)
    ensures var rows := HistoricalRecords(symbol, candles);
      var idx := KeptIndices(symbol, candles);
      |idx| == |rows|
      && forall k | 0 <= k < |idx| :: idx[k] < |candles| && HistoricalRecord(symbol, candles[idx[k]]) == Some(rows[k])
  {
    if |candles| > 0 {
      var n := |candles| - 1;
      var init := candles[..n];
      HistoricalRecordsAt(symbol, init);
      var rows0, idx0 := HistoricalRecords(symbol, init), KeptIndices(symbol, init);
      var rows, idx := HistoricalRecords(symbol, candles), KeptIndices(symbol, candles);
      assert |idx| == |rows|;
      forall k | 0 <= k < |idx|
        ensures idx[k] < |candles| && HistoricalRecord(symbol, candles[idx[k]]) == Some(rows[k])
      {
        if k < |idx0| {
          assert idx[k] == idx0[k] && rows[k] == rows0[k];
          assert candles[idx0[k]] == init[idx0[k]];
        }
      }
    }
  }

  /** `_process_historical_candles` */
  method ProcessHistoricalCandles(symbol: string, candles: seq<Bar>) returns (records: seq<FeedRecord>)
    ensures records == HistoricalRecords(symbol, candles)
  {
    records := [];
    for i := 0 to |candles|
      invariant records == HistoricalRecords(symbol, candles[..i])
    {
      assert candles[..i + 1][..i] == candles[..i];
      var rec := HistoricalRecord(symbol, candles[i]);
      if rec.Some? {
        records := records + [rec.value];
      }
    }
    assert candles[..|candles|] == candles;
  }

  // ----------------------------------------------------------------------------------
  // Paged download of one day
  // ----------------------------------------------------------------------------------

  /** The vendor as one day's download sees it: the reply to the n-th request, sent with query time q. */
  type Server = (nat, string) -> Reply

  const MaxPages: nat := 10
  const MaxRetries: nat := 3
  const MarketStartTime: string := "084500"

  /**
   * The attempts for one page, from attempt number `attempt` on, the first of them being request
   * number `req`: the number of the request that would come next, and the body of the first reply
   * that arrived, or None after the third transport failure.
   */
  function PageReply(server: Server, req: nat, query: string, attempt: nat): (r: (nat, Option<Response>))
    requires attempt < MaxRetries
    ensures req + 1 <= r.0 <= req + MaxRetries - attempt
    decreases MaxRetries - attempt
  {
    match server(req, query)
    case Json(body) => (req + 1, Some(body))
    case HttpFailure(_) =>
      if attempt + 1 == MaxRetries then (req + 1, None)
      else PageReply(server, req + 1, query, attempt + 1)
  }

  /**
   * The attempts for one page: every request before the last one sent failed in transport; the
   * body is the reply to the last one; None comes only after all remaining attempts failed.
   */
  lemma {:induction false} PageReplyAttempts(server: Server, req: nat, query: string, attempt: nat)
    requires attempt < MaxRetries
    ensures var r := PageReply(server, req, query, attempt);
      && (forall k | req <= k < r.0 - 1 :: server(k, query).HttpFailure?)
      && (r.1.Some? ==> server(r.0 - 1, query) == Json(r.1.value))
      && (r.1.None? ==> r.0 == req + MaxRetries - attempt && server(r.0 - 1, query).HttpFailure?)
    decreases MaxRetries - attempt
  {
    if server(req, query).HttpFailure? && attempt + 1 < MaxRetries {
      PageReplyAttempts(server, req + 1, query, attempt + 1);
    }
  }

  /** How the page loop ended: the third failure of one page, an escaping exception, or a break. */
  datatype PagingEnd = GaveUp | Raised(error: Error) | Finished

  /**
   * The page loop from page `page` on: how it ended, the requests sent, the non-empty pages
   * appended, and the query time of every page asked for.
   */
  datatype Paging = Paging(end: PagingEnd, requests: nat, pages: seq<seq<Bar>>, queries: seq<string>)

  /**
   * How the page loop reads a bar time of the day being fetched: `BarStamp` with the day's
   * date. A bar without a time prints as "None" and never parses.
   */
  type Stamp = string -> Result<DateTime>

  /** What one page's reply tells the loop: stop (with the pages to append), or go on from a bar time. */
  datatype PageStep = Stop(end: PagingEnd, appended: seq<seq<Bar>>) | Next(candles: seq<Bar>, time: string)

  /**
   * One page's reply: no body (third failure) gives up; `rt_cd` other than "0" or no rows
   * stops; otherwise the rows are appended and the page's earliest (last) bar decides: a time
   * that does not parse raises, one at or before 08:45:00 stops, a later one goes on.
   */
  function PageOutcome(start: DateTime, stamp: Stamp, body: Option<Response>): (r: PageStep)
    ensures r.Next? ==>
      && |r.candles| > 0 && body.Some? && body.value.output2 == Some(r.candles)
      && Field(r.candles[|r.candles| - 1], "stck_cntg_hour") == Some(r.time)
      && stamp(r.time).Ok? && Before(start, stamp(r.time).value)
    ensures r.Stop? ==> |r.appended| <= 1 && forall i | 0 <= i < |r.appended| :: |r.appended[i]| > 0
  {
    if body.None? then Stop(GaveUp, [])
    else if body.value.rtCd != Some("0") || !HasRows(body.value.output2) then Stop(Finished, [])
    else
      var candles := body.value.output2.value;
      var earliest := Field(candles[|candles| - 1], "stck_cntg_hour");
      if earliest.None? then Stop(Raised(ValueError("time data does not match format")), [candles])
      else match stamp(earliest.value)
        case Err(e) => Stop(Raised(e), [candles])
        case Ok(dt) => if !Before(start, dt) then Stop(Finished, [candles]) else Next(candles, earliest.value)
  }

  /**
   * One link of the query chain: the page is non-empty, its earliest (last) bar has time
   * `next`, and that time parses to a moment later than 08:45:00 (`start`).
   */
  predicate ChainLink(start: DateTime, stamp: Stamp, page: seq<Bar>, next: string)
  {
    |page| > 0 && Field(page[|page| - 1], "stck_cntg_hour") == Some(next)
    && stamp(next).Ok? && Before(start, stamp(next).value)
  }

  /** Every page asked for after the first is linked to the page before it. */
  predicate Chained(start: DateTime, stamp: Stamp, pages: seq<seq<Bar>>, queries: seq<string>)
    decreases |queries|
  {
    |queries| <= 1
    || (|pages| > 0 && ChainLink(start, stamp, pages[0], queries[1]) && Chained(start, stamp, pages[1..], queries[1..]))
  }

  /**
   * `_fetch_day_data`'s page loop: at most ten pages, the first asked for at `query` (15:45:00)
   * and each later one at the time of the previous page's earliest (last) bar, which must lie
   * after 08:45:00 (`start`) for the loop to go on. The day's date enters only through `stamp`.
   * The loop sends one to three requests for each page, appends every page it asked for
   * except possibly the last, and appends only non-empty pages.
   */
  function DayPages(start: DateTime, stamp: Stamp, server: Server, page: nat, req: nat, query: string): Paging
    requires page <= MaxPages
    decreases MaxPages - page
  {
    if page == MaxPages then Paging(Finished, 0, [], [])
    else
      var attempts := PageReply(server, req, query, 0);
      match PageOutcome(start, stamp, attempts.1)
      case Stop(end, appended) => Paging(end, attempts.0 - req, appended, [query])
      case Next(candles, time) =>
        var rest := DayPages(start, stamp, server, page + 1, attempts.0, time);
        Paging(rest.end, attempts.0 - req + rest.requests, [candles] + rest.pages, [query] + rest.queries)
  }

  /**
   * The counts of a page loop that had `left` pages to go: at most `left` pages asked for, at
   * least one if any was allowed, one to three requests for each, every page asked for
   * appended except possibly the last, and only non-empty pages appended.
   */
  predicate Counted(r: Paging, left: nat)
  {
    && |r.queries| <= left && (left > 0 ==> |r.queries| >= 1)
    && |r.queries| <= r.requests <= MaxRetries * |r.queries|
    && |r.pages| <= |r.queries| <= |r.pages| + 1
    && (forall i | 0 <= i < |r.pages| :: |r.pages[i]| > 0)
  }

  /** A last page asked for with one to three requests keeps the counts. */
  lemma CountedStop(end: PagingEnd, requests: nat, appended: seq<seq<Bar>>, query: string, left: nat)
    requires 1 <= requests <= MaxRetries && 1 <= left
    requires |appended| <= 1 && forall i | 0 <= i < |appended| :: |appended[i]| > 0
    ensures Counted(Paging(end, requests, appended, [query]), left)
  {
  }

  /** One more page in front, asked for with one to three requests and appended, keeps the counts. */
  lemma CountedCons(rest: Paging, left: nat, requests: nat, candles: seq<Bar>, query: string)
    requires Counted(rest, left) && 1 <= requests <= MaxRetries && |candles| > 0
    ensures Counted(Paging(rest.end, requests + rest.requests, [candles] + rest.pages, [query] + rest.queries), left + 1)
  {
    var pages := [candles] + rest.pages;
    forall i | 0 <= i < |pages|
      ensures |pages[i]| > 0
    {
      if i > 0 {
        assert pages[i] == rest.pages[i - 1];
      }
    }
  }

  /** The page loop from page `page` on keeps the counts, with `MaxPages - page` pages to go. */
  lemma {:induction false} DayPagesCounts(start: DateTime, stamp: Stamp, server: Server, page: nat, req: nat, query: string)
    requires page <= MaxPages
    ensures Counted(DayPages(start, stamp, server, page, req, query), MaxPages - page)
    decreases MaxPages - page
  {
    if page < MaxPages {
      var attempts := PageReply(server, req, query, 0);
      var step := PageOutcome(start, stamp, attempts.1);
      if step.Next? {
        DayPagesCounts(start, stamp, server, page + 1, attempts.0, step.time);
      }
      CountedTurn(start, stamp, server, page, req, query, attempts.0, step);
    }
  }

  /** One page of the loop keeps the counts if the pages after it do. */
  lemma CountedTurn(start: DateTime, stamp: Stamp, server: Server, page: nat, req: nat, query: string,
                    next: nat, step: PageStep)
    requires page < MaxPages
    requires next == PageReply(server, req, query, 0).0 && step == PageOutcome(start, stamp, PageReply(server, req, query, 0).1)
    requires step.Next? ==> Counted(DayPages(start, stamp, server, page + 1, next, step.time), MaxPages - (page + 1))
    ensures Counted(DayPages(start, stamp, server, page, req, query), MaxPages - page)
  {
    DayPagesStep(start, stamp, server, page, req, query);
    if step.Next? {
      var rest := DayPages(start, stamp, server, page + 1, next, step.time);
      CountedCons(rest, MaxPages - (page + 1), next - req, step.candles, query);
    } else {
      CountedStop(step.end, next - req, step.appended, query, MaxPages - page);
    }
  }

  /** A chain with one more page in front, linked to the chain's first query. */
  lemma ChainedCons(start: DateTime, stamp: Stamp, candles: seq<Bar>, query: string, pages: seq<seq<Bar>>, queries: seq<string>)
    requires Chained(start, stamp, pages, queries)
    requires |queries| > 0 ==> ChainLink(start, stamp, candles, queries[0])
    ensures Chained(start, stamp, [candles] + pages, [query] + queries)
  {
    assert ([candles] + pages)[1..] == pages && ([query] + queries)[1..] == queries;
  }

  /** The page loop from page `page` on asks for its first page at `query`. */
  lemma DayPagesFirstQuery(start: DateTime, stamp: Stamp, server: Server, page: nat, req: nat, query: string)
    requires page <= MaxPages
    ensures |DayPages(start, stamp, server, page, req, query).queries| > 0 ==>
      DayPages(start, stamp, server, page, req, query).queries[0] == query
  {
    if page < MaxPages {
      DayPagesStep(start, stamp, server, page, req, query);
    }
  }

  /**
   * The query chain of the page loop from page `page` on: each page after the first is asked
   * for at the time of the previous page's earliest bar, which lies after 08:45:00.
   */
  lemma {:induction false} DayPagesChain(start: DateTime, stamp: Stamp, server: Server, page: nat, req: nat, query: string)
    requires page <= MaxPages
    ensures Chained(start, stamp, DayPages(start, stamp, server, page, req, query).pages,
                    DayPages(start, stamp, server, page, req, query).queries)
    decreases MaxPages - page
  {
    if page < MaxPages {
      var attempts := PageReply(server, req, query, 0);
      var step := PageOutcome(start, stamp, attempts.1);
      if step.Next? {
        DayPagesChain(start, stamp, server, page + 1, attempts.0, step.time);
      }
      ChainedTurn(start, stamp, server, page, req, query, attempts.0, step);
    }
  }

  /** One page of the loop extends the chain of the pages after it. */
  lemma ChainedTurn(start: DateTime, stamp: Stamp, server: Server, page: nat, req: nat, query: string,
                    next: nat, step: PageStep)
    requires page < MaxPages
    requires next == PageReply(server, req, query, 0).0 && step == PageOutcome(start, stamp, PageReply(server, req, query, 0).1)
    requires step.Next? ==> Chained(start, stamp, DayPages(start, stamp, server, page + 1, next, step.time).pages,
                                    DayPages(start, stamp, server, page + 1, next, step.time).queries)
    ensures Chained(start, stamp, DayPages(start, stamp, server, page, req, query).pages,
                    DayPages(start, stamp, server, page, req, query).queries)
  {
    DayPagesStep(start, stamp, server, page, req, query);
    if step.Next? {
      DayPagesFirstQuery(start, stamp, server, page + 1, next, step.time);
      var rest := DayPages(start, stamp, server, page + 1, next, step.time);
      ChainedCons(start, stamp, step.candles, query, rest.pages, rest.queries);
    }
  }

  /** The pages laid end to end: `all_candles` after the `extend` calls. */
  function Flatten(pages: seq<seq<Bar>>): (r: seq<Bar>)
  {
    if |pages| == 0 then [] else pages[0] + Flatten(pages[1..])
  }

  /** The bar-time reading of one day: `BarStamp` with that day's date. */
  function DayStamp(date: string): Stamp
  {
    t => BarStamp(Some(date), Some(t))
  }

  /** One page of the loop, unrolled: a stop ends the loop, a go-on continues it from the next page. */
  lemma DayPagesStep(start: DateTime, stamp: Stamp, server: Server, page: nat, req: nat, query: string)
    requires page < MaxPages
    ensures var r := DayPages(start, stamp, server, page, req, query);
      var attempts := PageReply(server, req, query, 0);
      var step := PageOutcome(start, stamp, attempts.1);
      (step.Stop? ==> r == Paging(step.end, attempts.0 - req, step.appended, [query]))
      && (step.Next? ==>
            var rest := DayPages(start, stamp, server, page + 1, attempts.0, step.time);
            r == Paging(rest.end, attempts.0 - req + rest.requests, [step.candles] + rest.pages, [query] + rest.queries))
  {
  }

  /** The de-duplication key: the bar's date and time; a missing one is NaN, and NaN equals NaN here. */
  function DedupKey(b: Bar): (Option<string>, Option<string>)
  {
    (Field(b, "stck_bsop_date"), Field(b, "stck_cntg_hour"))
  }

  /** No bar before position j has bar j's key. */
  predicate FirstOfKey(bars: seq<Bar>, j: int)
    requires 0 <= j < |bars|
  {
    forall i | 0 <= i < j :: DedupKey(bars[i]) != DedupKey(bars[j])
  }

  /** `drop_duplicates(subset=[date, time])`: the first bar of every key, in input order. */
  function Dedup(bars: seq<Bar>): (r: seq<Bar>)
    ensures |r| <= |bars|
  {
    if |bars| == 0 then []
    else Dedup(bars[..|bars| - 1]) + (if FirstOfKey(bars, |bars| - 1) then [bars[|bars| - 1]] else [])
  }

  /** The positions of the first bar of every key, ascending. */
  function FirstIndices(bars: seq<Bar>): seq<nat>
  {
    if |bars| == 0 then []
    else FirstIndices(bars[..|bars| - 1]) + (if FirstOfKey(bars, |bars| - 1) then [|bars| - 1] else [])
  }

  /**
   * The de-duplicated rows are exactly the first bar of every key, in input order: the k-th
   * row is the bar at the k-th kept position, the kept positions ascend, and a position is
   * kept iff no earlier bar has its key.
   */
  lemma {:induction false} DedupExact(bars: seq<Bar>)
    ensures var r := Dedup(bars);
      var idx := FirstIndices(bars);
      |idx| == |r|
      && (forall k | 0 <= k < |idx| :: idx[k] < |bars| && r[k] == bars[idx[k]])
      && (forall k, l | 0 <= k < l < |idx| :: idx[k] < idx[l])
      && (forall j | 0 <= j < |bars| :: FirstOfKey(bars, j) <==> j in idx)
  {
    if |bars| > 0 {
      var n := |bars| - 1;
      var init := bars[..n];
      DedupExact(init);
      assert forall j | 0 <= j < n :: init[j] == bars[j];
      assert forall j | 0 <= j < n :: FirstOfKey(init, j) == FirstOfKey(bars, j);
    }
  }

  /** No key occurs twice among the de-duplicated rows. */
  lemma DedupDistinct(bars: seq<Bar>)
    ensures var r := Dedup(bars);
      forall k, l | 0 <= k < l < |r| :: DedupKey(r[k]) != DedupKey(r[l])
  {
    DedupExact(bars);
    var r := Dedup(bars);
    var idx := FirstIndices(bars);
    forall k, l | 0 <= k < l < |r|
      ensures DedupKey(r[k]) != DedupKey(r[l])
    {
      assert idx[k] < idx[l];
      assert FirstOfKey(bars, idx[l]);
    }
  }

  /** Some bar of `bars` has the given key. */
  predicate HasKey(bars: seq<Bar>, key: (Option<string>, Option<string>))
  {
    exists k | 0 <= k < |bars| :: DedupKey(bars[k]) == key
  }

  /** Every key of the input survives de-duplication. */
  lemma {:induction false} DedupCovers(bars: seq<Bar>)
    ensures forall j | 0 <= j < |bars| :: HasKey(Dedup(bars), DedupKey(bars[j]))
  {
    if |bars| > 0 {
      var n := |bars| - 1;
      var init := bars[..n];
      DedupCovers(init);
      var r := Dedup(bars);
      var r0 := Dedup(init);
      assert r[..|r0|] == r0;
      forall j | 0 <= j < |bars|
        ensures HasKey(r, DedupKey(bars[j]))
      {
        if j < n {
          assert init[j] == bars[j];
          assert HasKey(r0, DedupKey(init[j]));
          var k :| 0 <= k < |r0| && DedupKey(r0[k]) == DedupKey(init[j]);
          assert r[k] == r0[k];
        } else if FirstOfKey(bars, n) {
          assert r[|r| - 1] == bars[n];
        } else {
          var i :| 0 <= i < n && DedupKey(bars[i]) == DedupKey(bars[n]);
          assert init[i] == bars[i];
          assert HasKey(r0, DedupKey(init[i]));
          var k :| 0 <= k < |r0| && DedupKey(r0[k]) == DedupKey(init[i]);
          assert r[k] == r0[k];
        }
      }
    }
  }

  /** Some bar has the column. */
  predicate HasColumn(bars: seq<Bar>, column: string)
  {
    exists i | 0 <= i < |bars| :: column in bars[i]
  }

  /**
   * `pd.DataFrame(all_candles).drop_duplicates(subset=[...]).to_dict('records')`: the frame's
   * columns are the union of the bars' keys, and a subset column no bar has raises KeyError,
   * which is also what happens to an empty list.
   */
  function DropDuplicates(bars: seq<Bar>): (r: Result<seq<Bar>>)
    ensures |bars| == 0 ==> r.Err?
  {
    if !HasColumn(bars, "stck_bsop_date") then Err(KeyError("stck_bsop_date"))
    else if !HasColumn(bars, "stck_cntg_hour") then Err(KeyError("stck_cntg_hour"))
    else Ok(Dedup(bars))
  }

  /**
   * `_fetch_day_data`: a date that does not parse raises before any request; a page that
   * failed three times returns `[]`; a bar time that does not parse raises; otherwise the
   * appended pages are de-duplicated.
   */
  function FetchDay(date: string, server: Server): (r: Result<seq<Bar>>)
  {
    var start :- BarStamp(Some(date), Some(MarketStartTime));
    var p := DayPages(start, DayStamp(date), server, 0, 0, CloseTime);
    match p.end
    case GaveUp => Ok([])
    case Raised(e) => Err(e)
    case Finished => DropDuplicates(Flatten(p.pages))
  }

  /**
   * What a download returns: `[]` only after a third failure; otherwise the first bar of every
   * (date, time) key found on the pages, one per key, each page asked for at the previous
   * page's earliest time, at most ten pages and thirty requests.
   */
  lemma FetchDayResult(date: string, server: Server)
    requires FetchDay(date, server).Ok?
    ensures var start := BarStamp(Some(date), Some(MarketStartTime));
      start.Ok?
      && var p := DayPages(start.value, DayStamp(date), server, 0, 0, CloseTime);
         |p.queries| <= MaxPages && p.requests <= MaxPages * MaxRetries
         && (p.queries[0] == CloseTime) && Chained(start.value, DayStamp(date), p.pages, p.queries)
         && (p.end == GaveUp <==> FetchDay(date, server) == Ok([]))
         && (p.end == Finished ==> FetchDay(date, server) == Ok(Dedup(Flatten(p.pages))))
  {
    var start := BarStamp(Some(date), Some(MarketStartTime)).value;
    var p := DayPages(start, DayStamp(date), server, 0, 0, CloseTime);
    DayPagesCounts(start, DayStamp(date), server, 0, 0, CloseTime);
    DayPagesFirstQuery(start, DayStamp(date), server, 0, 0, CloseTime);
    DayPagesChain(start, DayStamp(date), server, 0, 0, CloseTime);
    if p.end == Finished {
      DropDuplicatesNonEmpty(Flatten(p.pages));
    }
  }

  lemma AppendAssoc<T>(a: seq<T>, b: seq<T>, c: seq<T>)
    ensures a + (b + c) == (a + b) + c
  {
  }

  /** Flattening a page in front of the rest. */
  lemma FlattenCons(page: seq<Bar>, rest: seq<seq<Bar>>)
    ensures Flatten([page] + rest) == page + Flatten(rest)
  {
    assert ([page] + rest)[1..] == rest;
  }

  /**
   * The retry loop for one page: up to three requests, stopping at the first reply that is
   * not a transport or HTTP failure; `None` when all three failed. It returns the number of the
   * request that would come next and the body, as `PageReply` does.
   */
  method RequestPage(server: Server, req: nat, query: string) returns (next: nat, data: Option<Response>)
    ensures next == PageReply(server, req, query, 0).0 && data == PageReply(server, req, query, 0).1
  {
    var attempt := 0;
    var k := req;
    while true
      invariant 0 <= attempt < MaxRetries
      invariant PageReply(server, req, query, 0) == PageReply(server, k, query, attempt)
      decreases MaxRetries - attempt
    {
      var reply := server(k, query);
      if reply.Json? {
        return k + 1, Some(reply.body);
      }
      if attempt + 1 == MaxRetries {
        return k + 1, None;
      }
      attempt := attempt + 1;
      k := k + 1;
    }
  }

  /**
   * One turn of the page loop, case by case as the loop tests them: no body (third failure),
   * a bad `rt_cd` or no rows, an earliest bar without a time or with one that does not parse,
   * an earliest bar at or before 08:45:00, and one after it.
   */
  lemma PageTurn(start: DateTime, stamp: Stamp, server: Server, page: nat, nextPage: nat, req: nat, query: string)
    requires page < MaxPages && nextPage == page + 1
    ensures var attempts := PageReply(server, req, query, 0);
      var body := attempts.1;
      var tail := DayPages(start, stamp, server, page, req, query);
      && (body.None? ==> tail.end == GaveUp)
      && (body.Some? && (body.value.rtCd != Some("0") || !HasRows(body.value.output2)) ==>
            tail.end == Finished && tail.pages == [])
      && (body.Some? && body.value.rtCd == Some("0") && HasRows(body.value.output2) ==>
            var candles := body.value.output2.value;
            var time := Field(candles[|candles| - 1], "stck_cntg_hour");
            && (time.None? ==> tail.end == Raised(ValueError("time data does not match format")))
            && (time.Some? && stamp(time.value).Err? ==> tail.end == Raised(stamp(time.value).error))
            && (time.Some? && stamp(time.value).Ok? && !Before(start, stamp(time.value).value) ==>
                  tail.end == Finished && tail.pages == [candles])
            && (time.Some? && stamp(time.value).Ok? && Before(start, stamp(time.value).value) ==>
                  var rest := DayPages(start, stamp, server, nextPage, attempts.0, time.value);
                  tail.end == rest.end && tail.pages == [candles] + rest.pages))
  {
    DayPagesStep(start, stamp, server, page, req, query);
  }

  /** Flattening pages with one more page at the end. */
  lemma {:induction false} FlattenSnoc(done: seq<seq<Bar>>, page: seq<Bar>)
    ensures Flatten(done + [page]) == Flatten(done) + page
    decreases |done|
  {
    if |done| == 0 {
      assert done + [page] == [page] + [];
      FlattenCons(page, []);
    } else {
      assert done + [page] == [done[0]] + (done[1..] + [page]);
      FlattenCons(done[0], done[1..] + [page]);
      FlattenSnoc(done[1..], page);
      FlattenCons(done[0], done[1..]);
      assert done == [done[0]] + done[1..];
      AppendAssoc(done[0], Flatten(done[1..]), page);
    }
  }

  /**
   * The page loop's invariant: the pages of the whole download are the pages appended so far
   * followed by those of the rest of the loop, and `all_candles` holds the rows appended so far.
   */
  predicate LoopInvariant(full: Paging, done: seq<seq<Bar>>, allCandles: seq<Bar>, tail: Paging)
  {
    full.end == tail.end && full.pages == done + tail.pages && allCandles == Flatten(done)
  }

  /** The page loop's invariant carried over one appended page. */
  lemma LoopStep(full: Paging, done: seq<seq<Bar>>, allCandles: seq<Bar>, candles: seq<Bar>, tail: Paging, rest: Paging)
    requires LoopInvariant(full, done, allCandles, tail)
    requires tail.end == rest.end && tail.pages == [candles] + rest.pages
    ensures LoopInvariant(full, done + [candles], allCandles + candles, rest)
  {
    FlattenSnoc(done, candles);
    AppendAssoc(done, [candles], rest.pages);
  }

  /** The page loop ends by `break` (or after ten pages) with the last pages, if any, appended. */
  lemma LoopFinished(full: Paging, done: seq<seq<Bar>>, allCandles: seq<Bar>, last: seq<seq<Bar>>, tail: Paging)
    requires LoopInvariant(full, done, allCandles, tail)
    requires tail.end == Finished && tail.pages == last && |last| <= 1
    ensures full.end == Finished && Flatten(full.pages) == allCandles + (if |last| == 0 then [] else last[0])
  {
    if |last| == 0 {
      assert done + last == done;
      assert Flatten(last) == [];
      assert allCandles + [] == allCandles;
    } else {
      FlattenSnoc(done, last[0]);
      assert last == [last[0]];
      FlattenCons(last[0], []);
      assert [last[0]] + [] == [last[0]];
    }
  }

  /**
   * The page loop of `_fetch_day_data`: how it ended, and the rows appended to `all_candles`
   * when it ended by `break` or after ten pages. `stamp` reads a bar time of the day; a bar
   * without a time raises as `strptime` does on the text "None".
   */
  method PageLoop(start: DateTime, stamp: Stamp, server: Server) returns (end: PagingEnd, allCandles: seq<Bar>)
    ensures var p := DayPages(start, stamp, server, 0, 0, CloseTime);
      end == p.end && (end == Finished ==> allCandles == Flatten(p.pages))
  {
    allCandles := [];
    var nextQueryTime := CloseTime;
    ghost var full := DayPages(start, stamp, server, 0, 0, CloseTime);
    ghost var done: seq<seq<Bar>> := [];
    var page: nat := 0;
    var req: nat := 0;
    assert [] + full.pages == full.pages;
    while page < MaxPages
      invariant page <= MaxPages
      invariant LoopInvariant(full, done, allCandles, DayPages(start, stamp, server, page, req, nextQueryTime))
      decreases MaxPages - page
    {
      ghost var tail := DayPages(start, stamp, server, page, req, nextQueryTime);
      var nextPage := page + 1;
      PageTurn(start, stamp, server, page, nextPage, req, nextQueryTime);
      var next, data := RequestPage(server, req, nextQueryTime);
      if data.None? {
        return GaveUp, allCandles;
      }
      if data.value.rtCd != Some("0") || !HasRows(data.value.output2) {
        LoopFinished(full, done, allCandles, [], tail);
        return Finished, allCandles;
      }
      var candles := data.value.output2.value;
      var earliestTime := Field(candles[|candles| - 1], "stck_cntg_hour");
      if earliestTime.None? {
        return Raised(ValueError("time data does not match format")), allCandles + candles;
      }
      var stamped := stamp(earliestTime.value);
      if stamped.Err? {
        return Raised(stamped.error), allCandles + candles;
      }
      if !Before(start, stamped.value) {
        LoopFinished(full, done, allCandles, [candles], tail);
        return Finished, allCandles + candles;
      }
      ghost var rest := DayPages(start, stamp, server, nextPage, next, earliestTime.value);
      LoopStep(full, done, allCandles, candles, tail, rest);
      allCandles := allCandles + candles;
      done := done + [candles];
      nextQueryTime := earliestTime.value;
      req := next;
      page := nextPage;
    }
    LoopFinished(full, done, allCandles, [], DayPages(start, stamp, server, page, req, nextQueryTime));
    end := Finished;
  }

  /**
   * `_fetch_day_data`: the market start of the day (a date that does not parse raises before any
   * request), the page loop, `[]` after a third failure, and the de-duplicated rows otherwise.
   * It returns what `FetchDay` describes; `server(k, q)` is the reply to the k-th request sent,
   * asked for query time q.
   */
  method FetchDayData(date: string, server: Server) returns (r: Result<seq<Bar>>)
    ensures r == FetchDay(date, server)
  {
    var marketStart :- BarStamp(Some(date), Some(MarketStartTime));
    var end, allCandles := PageLoop(marketStart, DayStamp(date), server);
    match end
    case GaveUp => r := Ok([]);
    case Raised(e) => r := Err(e);
    case Finished => r := DropDuplicates(allCandles);
  }

  /** A successful de-duplication never returns the empty list. */
  lemma DropDuplicatesNonEmpty(bars: seq<Bar>)
    requires DropDuplicates(bars).Ok?
    ensures DropDuplicates(bars).value != []
  {
    DedupCovers(bars);
    assert HasKey(Dedup(bars), DedupKey(bars[0]));
  }

  // ----------------------------------------------------------------------------------
  // Verification of the stored history (`verify_historical_data`)
  // ----------------------------------------------------------------------------------

  /** The bars a complete session stores: 08:46 to 15:45 plus the 15:45 close. */
  const ExpectedPerDay: nat := 411

  /** Trading days as `get_trading_days` lists them: ascending, hence distinct. */
  predicate Ascending(days: seq<string>)
  {
    forall i, j | 0 <= i < j < |days| :: Less(days[i], days[j])
  }

  /** `min(trading_days_list)` of an ascending list, None for an empty one. */
  function OldestDay(days: seq<string>): (r: Option<string>)
    requires Ascending(days)
    ensures r.Some? <==> |days| > 0
    ensures r.Some? ==> r.value in days && forall d | d in days :: LessEq(r.value, d)
  {
    if |days| == 0 then None else Some(days[0])
  }

  /** The days missing from the table that are reported, oldest day excepted, in order. */
  function MissingDays(days: seq<string>, dbDays: map<string, nat>, oldest: Option<string>): seq<string>
  {
    if |days| == 0 then []
    else
      var d := days[|days| - 1];
      MissingDays(days[..|days| - 1], dbDays, oldest)
      + (if d !in dbDays && Some(d) != oldest then [d] else [])
  }

  /** The stored days with fewer than 411 bars, oldest day excepted, in order. */
  function ShortDays(days: seq<string>, dbDays: map<string, nat>, oldest: Option<string>): seq<string>
  {
    if |days| == 0 then []
    else
      var d := days[|days| - 1];
      ShortDays(days[..|days| - 1], dbDays, oldest)
      + (if d in dbDays && Some(d) != oldest && dbDays[d] < ExpectedPerDay then [d] else [])
  }

  /** A day that keeps `all_days_ok`: the oldest day, or one stored with exactly 411 bars. */
  predicate DayOk(d: string, dbDays: map<string, nat>, oldest: Option<string>)
  {
    Some(d) == oldest || (d in dbDays && dbDays[d] == ExpectedPerDay)
  }

  /**
   * One day of the auto-fix: skipped if it is the oldest day; otherwise downloaded, and the
   * processed rows saved as one batch if the download returned rows and some survived
   * processing (`_save_batch` ignores an empty list); a download that raised is logged.
   */
  function FixDay(symbol: string, day: string, oldest: Option<string>, servers: string -> Server): (r: seq<seq<FeedRecord>>)
    ensures |r| <= 1 && forall i | 0 <= i < |r| :: |r[i]| > 0
  {
    if Some(day) == oldest then []
    else match FetchDay(day, servers(day))
      case Err(_) => []
      case Ok(raw) =>
        if |raw| == 0 then []
        else
          var records := HistoricalRecords(symbol, raw);
          if |records| == 0 then [] else [records]
  }

  /** The batches the auto-fix saves for `days`, in order. */
  function FixBatches(symbol: string, days: seq<string>, oldest: Option<string>, servers: string -> Server): (r: seq<seq<FeedRecord>>)
    ensures |r| <= |days|
  {
    if |days| == 0 then []
    else FixBatches(symbol, days[..|days| - 1], oldest, servers) + FixDay(symbol, days[|days| - 1], oldest, servers)
  }

  /** One turn of the auto-fix loop, as `FixDay` says. */
  method FixOne(symbol: string, day: string, oldest: Option<string>, servers: string -> Server)
    returns (batch: seq<seq<FeedRecord>>)
    ensures batch == FixDay(symbol, day, oldest, servers)
  {
    batch := [];
    if Some(day) == oldest {
      return;
    }
    var raw := FetchDayData(day, servers(day));
    if raw.Ok? && |raw.value| > 0 {
      var records := ProcessHistoricalCandles(symbol, raw.value);
      if |records| > 0 {
        batch := [records];
      }
    }
  }

  /** The auto-fix loop: each listed day downloaded, processed and saved as `FixBatches` says. */
  method FixDays(symbol: string, incomplete: seq<string>, oldest: Option<string>, servers: string -> Server)
    returns (saved: seq<seq<FeedRecord>>)
    ensures saved == FixBatches(symbol, incomplete, oldest, servers)
  {
    saved := [];
    for i := 0 to |incomplete|
      invariant saved == FixBatches(symbol, incomplete[..i], oldest, servers)
    {
      FixBatchesSnoc(symbol, incomplete, i, oldest, servers);
      var batch := FixOne(symbol, incomplete[i], oldest, servers);
      saved := saved + batch;
    }
    FixBatchesAll(symbol, incomplete, oldest, servers);
  }

  /** The batches for one more day. */
  lemma FixBatchesSnoc(symbol: string, days: seq<string>, i: nat, oldest: Option<string>, servers: string -> Server)
    requires i < |days|
    ensures FixBatches(symbol, days[..i + 1], oldest, servers)
         == FixBatches(symbol, days[..i], oldest, servers) + FixDay(symbol, days[i], oldest, servers)
  {
    assert days[..i + 1][..i] == days[..i];
  }

  /** The batches for the whole list. */
  lemma FixBatchesAll(symbol: string, days: seq<string>, oldest: Option<string>, servers: string -> Server)
    ensures FixBatches(symbol, days[..|days|], oldest, servers) == FixBatches(symbol, days, oldest, servers)
  {
    assert days[..|days|] == days;
  }

  /**
   * The two passes of `verify_historical_data` over the trading days: the missing days, then
   * the stored days' counts; any day other than `oldest` that is absent or not at 411 bars
   * clears the verdict, and the absent and short ones are listed.
   */
  method CheckDays(days: seq<string>, dbDays: map<string, nat>, oldest: Option<string>)
    returns (allDaysOk: bool, incomplete: seq<string>)
    ensures incomplete == MissingDays(days, dbDays, oldest) + ShortDays(days, dbDays, oldest)
    ensures allDaysOk <==> forall i | 0 <= i < |days| :: DayOk(days[i], dbDays, oldest)
  {
    allDaysOk := true;
    var missing: seq<string> := [];
    for i := 0 to |days|
      invariant missing == MissingDays(days[..i], dbDays, oldest)
      invariant allDaysOk <==> forall j | 0 <= j < i :: days[j] in dbDays || Some(days[j]) == oldest
    {
      assert days[..i + 1][..i] == days[..i];
      var day := days[i];
      if day !in dbDays {
        if Some(day) != oldest {
          allDaysOk := false;
          missing := missing + [day];
        }
      }
    }
    assert days[..|days|] == days;
    var short: seq<string> := [];
    for i := 0 to |days|
      invariant short == ShortDays(days[..i], dbDays, oldest)
      invariant allDaysOk <==>
        (forall j | 0 <= j < |days| :: days[j] in dbDays || Some(days[j]) == oldest)
        && (forall j | 0 <= j < i :: days[j] !in dbDays || DayOk(days[j], dbDays, oldest))
    {
      assert days[..i + 1][..i] == days[..i];
      var day := days[i];
      if day in dbDays {
        var count := dbDays[day];
        if count != ExpectedPerDay && Some(day) != oldest {
          allDaysOk := false;
          if count < ExpectedPerDay {
            short := short + [day];
          }
        }
      }
    }
    incomplete := missing + short;
  }

  /** What `verify_historical_data` decides: the verdict, the days to fix, and the batches saved. */
  datatype Verification = Verification(allDaysOk: bool, incomplete: seq<string>, saved: seq<seq<FeedRecord>>)

  /**
   * `verify_historical_data`: missing days, then the stored days, in ascending order; the
   * oldest day only warns. `dbDays` is the per-day count the query returns and `servers(d)` the
   * vendor as the download of day d sees it.
   */
  method VerifyHistoricalData(symbol: string, days: seq<string>, dbDays: map<string, nat>, autoFix: bool,
                              servers: string -> Server) returns (v: Verification)
    requires Ascending(days)
    ensures var oldest := OldestDay(days);
      && v.incomplete == MissingDays(days, dbDays, oldest) + ShortDays(days, dbDays, oldest)
      && (v.allDaysOk <==> forall i | 0 <= i < |days| :: DayOk(days[i], dbDays, oldest))
      && v.saved == (if autoFix && !v.allDaysOk then FixBatches(symbol, v.incomplete, oldest, servers) else [])
  {
    var oldest := OldestDay(days);
    var allDaysOk, incomplete := CheckDays(days, dbDays, oldest);
    var saved: seq<seq<FeedRecord>> := [];
    if !allDaysOk && autoFix && |incomplete| > 0 {
      saved := FixDays(symbol, incomplete, oldest, servers);
    }
    v := Verification(allDaysOk, incomplete, saved);
  }

  /** A day is reported missing exactly when it is a trading day absent from the table and not the oldest. */
  lemma {:induction false} MissingDaysExact(days: seq<string>, dbDays: map<string, nat>, oldest: Option<string>)
    ensures forall d :: d in MissingDays(days, dbDays, oldest) <==> d in days && d !in dbDays && Some(d) != oldest
    decreases |days|
  {
    if |days| > 0 {
      MissingDaysExact(days[..|days| - 1], dbDays, oldest);
      assert days == days[..|days| - 1] + [days[|days| - 1]];
    }
  }

  /** A day is reported short exactly when it is a trading day stored with fewer than 411 bars and not the oldest. */
  lemma {:induction false} ShortDaysExact(days: seq<string>, dbDays: map<string, nat>, oldest: Option<string>)
    ensures forall d :: d in ShortDays(days, dbDays, oldest) <==>
      d in days && d in dbDays && dbDays[d] < ExpectedPerDay && Some(d) != oldest
    decreases |days|
  {
    if |days| > 0 {
      ShortDaysExact(days[..|days| - 1], dbDays, oldest);
      assert days == days[..|days| - 1] + [days[|days| - 1]];
    }
  }

  /**
   * The days handed to the auto-fix are exactly the trading days other than the oldest that are
   * absent or stored with fewer than 411 bars; in particular the oldest day is never among them,
   * so the loop's skip of the oldest day never fires.
   */
  lemma IncompleteExact(days: seq<string>, dbDays: map<string, nat>, oldest: Option<string>)
    ensures forall d :: d in MissingDays(days, dbDays, oldest) + ShortDays(days, dbDays, oldest) <==>
      d in days && Some(d) != oldest && (d !in dbDays || dbDays[d] < ExpectedPerDay)
  {
    MissingDaysExact(days, dbDays, oldest);
    ShortDaysExact(days, dbDays, oldest);
  }

  /**
   * The verdict: with the days ascending, all days are OK exactly when every day after the
   * oldest (the first) is stored with exactly 411 bars.
   */
  lemma VerdictExact(days: seq<string>, dbDays: map<string, nat>)
    requires Ascending(days)
    ensures (forall i | 0 <= i < |days| :: DayOk(days[i], dbDays, OldestDay(days))) <==>
      forall i | 1 <= i < |days| :: days[i] in dbDays && dbDays[days[i]] == ExpectedPerDay
  {
    forall i | 1 <= i < |days|
      ensures days[i] != days[0]
    {
      LessAsymmetric(days[0], days[i]);
    }
  }

  /**
   * A verdict of OK leaves nothing to fix, while a day other than the oldest stored with more
   * than 411 bars clears the verdict and yet is not handed to the auto-fix.
   */
  lemma VerdictAndIncomplete(days: seq<string>, dbDays: map<string, nat>, oldest: Option<string>)
    ensures (forall i | 0 <= i < |days| :: DayOk(days[i], dbDays, oldest)) ==>
      MissingDays(days, dbDays, oldest) + ShortDays(days, dbDays, oldest) == []
    ensures forall i | 0 <= i < |days| && days[i] in dbDays && dbDays[days[i]] > ExpectedPerDay && Some(days[i]) != oldest ::
      !DayOk(days[i], dbDays, oldest) && days[i] !in MissingDays(days, dbDays, oldest) + ShortDays(days, dbDays, oldest)
  {
    IncompleteExact(days, dbDays, oldest);
    var incomplete := MissingDays(days, dbDays, oldest) + ShortDays(days, dbDays, oldest);
    if (forall i | 0 <= i < |days| :: DayOk(days[i], dbDays, oldest)) && incomplete != [] {
      assert incomplete[0] in incomplete;
    }
  }
}
