/**
 * The dolpha1 strategy's periodic signal check (`Dolpha1Strategy._check_signal` in
 * src/strategies/dolpha1/dolpha1.py): outside 08:45-15:47 it does nothing; otherwise, given at
 * least 100 recent bars, it computes the latest band signal, saves every signal that is not an
 * "insufficient data" report, and raises a trade alert at observation minutes. The two clock
 * readings (the check's and the one `get_latest_signal` takes) and the recent bars are parameters;
 * the signal database is the list of the rows it was asked to save.
 */
module Dolpha1 {
  import opened Wrappers
  import opened Text
  import opened Clock
  import opened Signals

  /** One `signal_database.save_signal(timestamp, symbol, signal_result)` call. */
  datatype SavedSignal = SavedSignal(timestamp: DateTime, symbol: string, signal: Signal)

  const SessionStart: string := "08:45"
  const SessionEnd: string := "15:47"

  /** `current_hour_min < '08:45' or current_hour_min >= '15:47'`, compared as strings. */
  predicate OutsideHours(now: DateTime)
  {
    Less(ClockText(now), SessionStart) || !Less(ClockText(now), SessionEnd)
  }

  /** A signal whose reason does not start with "insufficient_data" is saved. */
  predicate Saved(s: Signal)
  {
    !StartsWith(s.reason, "insufficient_data")
  }

  /** The trade alert: an observation minute with a non-zero trade signal. */
  predicate Alerted(s: Signal)
  {
    s.observe && s.trade != 0
  }

  /** The string test admits exactly the minutes 08:45 through 15:46 of a valid reading. */
  lemma OutsideHoursMinutes(now: DateTime)
    requires now.Valid()
    ensures OutsideHours(now) <==> now.MinuteOfDay() < 8 * 60 + 45 || now.MinuteOfDay() >= 15 * 60 + 47
  {
    PadDigits(8);
    PadDigits(45);
    PadDigits(15);
    PadDigits(47);
    assert SessionStart == Pad(8, 2) + ":" + Pad(45, 2);
    assert SessionEnd == Pad(15, 2) + ":" + Pad(47, 2);
    ClockTextBefore(now, SessionStart, 8, 45);
    ClockTextBefore(now, SessionEnd, 15, 47);
  }

  /**
   * Of the signals `get_latest_signal` reports, exactly those with a latest row carrying both
   * bands are saved; an alert fires exactly at an observation minute with a non-zero monitor
   * signal, and only for a saved signal.
   */
  lemma SavedIffLatest(p: Params, fs: seq<Features>, days: nat, now: DateTime)
    requires SignalOf(p, fs, days, now).Ok?
    ensures var s := SignalOf(p, fs, days, now).value;
      (Saved(s) <==> s.latest.Some?)
      && (Alerted(s) <==> s.observe && s.monitor != 0)
      && (Alerted(s) ==> Saved(s))
  {
    SignalOfShape(p, fs, days, now);
  }

  /**
   * On a frame of at least 100 bars, a signal is saved exactly when some bar of the sorted frame
   * has its own `sigma_open` (a full window of earlier same-minute moves).
   */
  lemma SavedIffSigma(p: Params, df: seq<Row>, now: DateTime)
    requires |df| >= MinRows && GetLatestSignal(p, df, now).Ok?
    ensures Saved(GetLatestSignal(p, df, now).value) <==> AnyRawSigma(p, SortRows(df))
    ensures Alerted(GetLatestSignal(p, df, now).value) ==> Saved(GetLatestSignal(p, df, now).value)
  {
    var fs := CreateFeatures(p, df).value;
    assert GetLatestSignal(p, df, now) == SignalOf(p, fs, DistinctDays(df), now);
    SavedIffLatest(p, fs, DistinctDays(df), now);
    LatestSignalOfFrame(p, df, now);
  }

  class Dolpha1Strategy {
    const symbol: string
    /** The signal generator's configuration. */
    const params: Params
    var lastSignalTime: Option<DateTime>
    /** The signals handed to the signal database, oldest first. */
    var saved: seq<SavedSignal>
    /** The signals that raised a trade alert, oldest first. */
    var alerts: seq<Signal>

    constructor(sym: string, p: Params)
      ensures symbol == sym && params == p && lastSignalTime == None && saved == [] && alerts == []
    {
      symbol := sym;
      params := p;
      lastSignalTime := None;
      saved := [];
      alerts := [];
    }

    /**
     * `_check_signal` at `checkTime` on the bars `recent`, with `signalTime` the clock reading
     * `get_latest_signal` takes. The outcome is the signal computed, none when the check is
     * skipped or too few bars are at hand, or the exception `get_latest_signal` raised, which
     * leaves the strategy as it was.
     */
    method CheckSignal(checkTime: DateTime, recent: seq<Row>, signalTime: DateTime) returns (r: Result<Option<Signal>>)
      modifies this
      ensures OutsideHours(checkTime) ==>
        r == Ok(None) && lastSignalTime == old(lastSignalTime) && saved == old(saved) && alerts == old(alerts)
      ensures !OutsideHours(checkTime) && |recent| < MinRows ==>
        r == Ok(None) && lastSignalTime == Some(checkTime) && saved == old(saved) && alerts == old(alerts)
      ensures !OutsideHours(checkTime) && |recent| >= MinRows ==>
        match GetLatestSignal(params, recent, signalTime)
        case Err(e) =>
          r == Err(e) && lastSignalTime == old(lastSignalTime) && saved == old(saved) && alerts == old(alerts)
        case Ok(s) =>
          var last := recent[|recent| - 1];
          r == Ok(Some(s)) && lastSignalTime == Some(checkTime)
          && saved == old(saved) + (if Saved(s) then [SavedSignal(last.timestamp, last.symbol, s)] else [])
          && alerts == old(alerts) + (if Saved(s) && Alerted(s) then [s] else [])
    {
      if Less(ClockText(checkTime), SessionStart) || !Less(ClockText(checkTime), SessionEnd) {
        return Ok(None);
      }
      r := Ok(None);
      if |recent| >= MinRows {
        var result := GetLatestSignal(params, recent, signalTime);
        r := Report(checkTime, recent, result);
      } else {
        lastSignalTime := Some(checkTime);
      }
    }

    /** The in-hours part of the check once `get_latest_signal` on at least one bar gave `result`. */
    method Report(checkTime: DateTime, recent: seq<Row>, result: Result<Signal>) returns (r: Result<Option<Signal>>)
      requires |recent| > 0
      modifies this
      ensures match result
        case Err(e) =>
          r == Err(e) && lastSignalTime == old(lastSignalTime) && saved == old(saved) && alerts == old(alerts)
        case Ok(s) =>
          var last := recent[|recent| - 1];
          r == Ok(Some(s)) && lastSignalTime == Some(checkTime)
          && saved == old(saved) + (if Saved(s) then [SavedSignal(last.timestamp, last.symbol, s)] else [])
          && alerts == old(alerts) + (if Saved(s) && Alerted(s) then [s] else [])
    {
      if result.Err? {
        return Err(result.error);
      }
      var s := result.value;
      r := Ok(Some(s));
      if !StartsWith(s.reason, "insufficient_data") {
        var last := recent[|recent| - 1];
        saved := saved + [SavedSignal(last.timestamp, last.symbol, s)];
        if s.observe && s.trade != 0 {
          alerts := alerts + [s];
        }
      }
      lastSignalTime := Some(checkTime);
    }
  }
}
