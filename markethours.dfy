/**
 * Trading-session predicates over an explicit clock reading: src/utils.py and its copy in
 * src/feed.py, the dolpha1 feeder's window (src/strategies/dolpha1/feeder.py with the
 * constants of src/consts.py) and the weekday-aware helpers of wsc/tools.py.
 *
 * Python compares `datetime.time` values, seconds and microseconds included, so 15:30:00.5
 * is already after a 15:30 close.
 */
module MarketHours {
  import opened Wrappers
  import opened Clock
  import opened Models

  /** `time(h, m)` on the microsecond scale of `DateTime.TimeKey`. */
  function At(h: int, m: int): int
  {
    h * 3600000000 + m * 60000000
  }

  /** `start <= now.time() <= end`, both ends inclusive. */
  predicate InWindow(now: DateTime, start: int, end: int)
  {
    start <= now.TimeKey() <= end
  }

  /** The clock reading is at `h:m:00.000000` or later. */
  predicate NotBefore(now: DateTime, h: int, m: int)
  {
    now.hour > h || (now.hour == h && now.minute >= m)
  }

  /** The clock reading is at `h:m:00.000000` or earlier. */
  predicate NotAfter(now: DateTime, h: int, m: int)
  {
    now.hour < h || (now.hour == h && (now.minute < m || (now.minute == m && now.second == 0 && now.micro == 0)))
  }

  /**
   * `is_market_open(market_type)` (src/utils.py, src/feed.py). `None` stands for any argument
   * that is neither enum member, for which the function falls through to `False`.
   */
  predicate IsMarketOpen(market: Option<MarketType>, now: DateTime)
  {
    match market
    case Some(Stock) => InWindow(now, At(9, 0), At(15, 30))
    case Some(Derivatives) => InWindow(now, At(8, 45), At(15, 45))
    case None => false
  }

  /** Reading the window off the hour, minute, second and microsecond fields. */
  lemma InWindowByFields(now: DateTime, h1: int, m1: int, h2: int, m2: int)
    requires now.Valid() && 0 <= h1 < 24 && 0 <= m1 < 60 && 0 <= h2 < 24 && 0 <= m2 < 60
    ensures InWindow(now, At(h1, m1), At(h2, m2)) <==> NotBefore(now, h1, m1) && NotAfter(now, h2, m2)
  {
    var k := now.TimeKey();
    var sub := now.second * 1000000 + now.micro;
    assert 0 <= sub < 60000000;
    assert k == now.hour * 3600000000 + now.minute * 60000000 + sub;
    assert At(h1, m1) <= k <==> NotBefore(now, h1, m1);
    assert k <= At(h2, m2) <==> NotAfter(now, h2, m2);
  }

  /** The stock session: 09:00 through 15:30:00 exactly. */
  lemma StockHours(now: DateTime)
    requires now.Valid()
    ensures IsMarketOpen(Some(Stock), now) <==> NotBefore(now, 9, 0) && NotAfter(now, 15, 30)
  {
    InWindowByFields(now, 9, 0, 15, 30);
  }

  /** The derivatives session: 08:45 through 15:45:00 exactly. */
  lemma DerivativesHours(now: DateTime)
    requires now.Valid()
    ensures IsMarketOpen(Some(Derivatives), now) <==> NotBefore(now, 8, 45) && NotAfter(now, 15, 45)
  {
    InWindowByFields(now, 8, 45, 15, 45);
  }

  /** The stock session lies inside the derivatives session. */
  lemma StockOpenImpliesDerivativesOpen(now: DateTime)
    requires now.Valid()
    ensures IsMarketOpen(Some(Stock), now) ==> IsMarketOpen(Some(Derivatives), now)
  {
    StockHours(now);
    DerivativesHours(now);
  }

  /** `Constants.MARKET_HOURS_DERIV_START` / `MARKET_HOURS_DERIV_END` (src/consts.py). */
  const DerivStartHour := 8
  const DerivStartMinute := 45
  const DerivEndHour := 15
  const DerivEndMinute := 47

  /** `RealtimeDataCollector._is_trading_hours` on the KST wall clock. */
  predicate FeederTradingHours(nowKst: DateTime)
  {
    InWindow(nowKst, At(DerivStartHour, DerivStartMinute), At(DerivEndHour, DerivEndMinute))
  }

  /**
   * The feeder's window is the derivatives session stretched two minutes past its close:
   * it opens at 08:45 and admits everything up to 15:47:00.
   */
  lemma FeederHours(now: DateTime)
    requires now.Valid()
    ensures FeederTradingHours(now) <==> NotBefore(now, 8, 45) && NotAfter(now, 15, 47)
    ensures IsMarketOpen(Some(Derivatives), now) ==> FeederTradingHours(now)
    ensures FeederTradingHours(now) && !IsMarketOpen(Some(Derivatives), now) ==>
              now.hour == 15 && (now.minute == 45 || now.minute == 46 || now.minute == 47)
  {
    InWindowByFields(now, 8, 45, 15, 47);
    DerivativesHours(now);
  }

  // ----------------------------------------------------------------------------------
  // wsc/tools.py
  // ----------------------------------------------------------------------------------

  /** `is_weekend()`: Saturday or Sunday. */
  predicate IsWeekend(now: DateTime)
    requires now.Valid()
  {
    Weekday(now) >= 5
  }

  /** `is_market_open()` of wsc/tools.py: a weekday, between 09:00 and 15:30 inclusive. */
  predicate WeekdayMarketOpen(now: DateTime)
    requires now.Valid()
  {
    if Weekday(now) >= 5 then false
    else InWindow(now, At(9, 0), At(15, 30))
  }

  /** The weekday session is the stock session of src/utils.py minus weekends. */
  lemma WeekdayMarketOpenIff(now: DateTime)
    requires now.Valid()
    ensures WeekdayMarketOpen(now) <==> !IsWeekend(now) && NotBefore(now, 9, 0) && NotAfter(now, 15, 30)
    ensures WeekdayMarketOpen(now) <==> !IsWeekend(now) && IsMarketOpen(Some(Stock), now)
  {
    StockHours(now);
  }

  /** `get_market_status()`: ("Open" or "Closed", the time as `%Y-%m-%d %H:%M:%S`). */
  function GetMarketStatus(now: DateTime): (r: (string, string))
    requires now.Valid()
    ensures r.0 == "Open" || r.0 == "Closed"
    ensures r.0 == "Open" <==> WeekdayMarketOpen(now)
    ensures r.1 == StampText(now) && |r.1| == 19 && r.1[10] == ' '
  {
    (if WeekdayMarketOpen(now) then "Open" else "Closed", StampText(now))
  }

  datatype MarketInfo = MarketInfo(isOpen: bool, isWeekend: bool, currentTime: string,
                                   weekday: int, marketHours: string)

  /** `get_market_info()`: the fields agree with one another and with the two predicates. */
  function GetMarketInfo(now: DateTime): (r: MarketInfo)
    requires now.Valid()
    ensures r.isOpen ==> !r.isWeekend
    ensures r.isWeekend <==> r.weekday >= 5
    ensures 0 <= r.weekday < 7
    ensures r.isOpen <==> r.weekday < 5 && NotBefore(now, 9, 0) && NotAfter(now, 15, 30)
    ensures r.currentTime == GetMarketStatus(now).1 == StampText(now)
    ensures r.weekday == Weekday(now) && r.isWeekend == IsWeekend(now) && r.isOpen == WeekdayMarketOpen(now)
    ensures r.marketHours == "09:00 ~ 15:30 KST"
  {
    WeekdayMarketOpenIff(now);
    MarketInfo(WeekdayMarketOpen(now), IsWeekend(now), StampText(now), Weekday(now), "09:00 ~ 15:30 KST")
  }
}
