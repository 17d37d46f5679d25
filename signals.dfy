/**
 * The band-breakout signal of the dolpha1 strategy (src/strategies/dolpha1/signals.py): the
 * per-row features `create_features` adds to the one-minute bars (VWAP, ATR, minutes from the
 * open, move from the day's open, the bucketed `sigma_open`, the upper and lower bands) and the
 * monitor/trade classification of `get_latest_signal`.
 *
 * Prices are `real` (exact, not IEEE doubles); a pandas NaN is `None`. Functions over a frame
 * take the rows as a sequence and a row index.
 */
module Signals {
  import opened Wrappers
  import opened Text
  import opened Clock

  /** One row of the frame `_get_recent_data` returns: a one-minute bar. */
  datatype Row = Row(timestamp: DateTime, symbol: string, open: real, high: real, low: real, close: real, volume: nat)

  /** `SignalGenerator.__init__`'s parameters. */
  datatype Params = Params(atrPeriod: nat, rollingMove: nat, bandMultiplier: real, useVwap: bool, observeInterval: int)

  /** The defaults: ATR over 10 bars, 5 sessions per bucket, bands at one sigma, VWAP filter, every 5 minutes. */
  const DefaultParams: Params := Params(10, 5, 1.0, true, 5)

  /** Below this many rows `create_features` returns an empty frame. */
  const MinRows: nat := 100

  function Abs(x: real): real
  {
    if x < 0.0 then -x else x
  }

  function Max(a: real, b: real): real
  {
    if a < b then b else a
  }

  function Min(a: real, b: real): real
  {
    if a < b then a else b
  }

  lemma MulNonNeg(a: real, b: real)
    requires a >= 0.0 && b >= 0.0
    ensures a * b >= 0.0
  {
  }

  lemma MulPos(a: real, b: real)
    requires a > 0.0 && b > 0.0
    ensures a * b > 0.0
  {
  }

  /** Multiplying by a non-negative number keeps order. */
  lemma MulMono(a: real, b: real, v: real)
    requires a <= b && v >= 0.0
    ensures a * v <= b * v
  {
    MulNonNeg(b - a, v);
    assert b * v - a * v == (b - a) * v;
  }

  lemma DivMul(t: real, v: real)
    requires v != 0.0
    ensures t / v * v == t
  {
  }

  /** A quotient by a positive number lies between the bounds its numerator was scaled from. */
  lemma DivBounds(t: real, v: real, lo: real, hi: real)
    requires v > 0.0 && lo * v <= t <= hi * v
    ensures lo <= t / v <= hi
  {
    var q := t / v;
    DivMul(t, v);
    if q < lo {
      MulPos(lo - q, v);
    }
    if q > hi {
      MulPos(q - hi, v);
    }
  }

  /** A weighted mean, missing on zero weight, lies between the bounds its sum was scaled from. */
  lemma MeanBounds(lo: real, hi: real, t: real, v: nat, r: Option<real>)
    requires lo * v as real <= t <= hi * v as real
    requires r == if v == 0 then None else Some(t / v as real)
    ensures r.Some? <==> v > 0
    ensures r.Some? ==> lo <= r.value <= hi
  {
    if v > 0 {
      DivBounds(t, v as real, lo, hi);
    }
  }

  /** A mean of a non-negative sum over a window is non-negative and scales back to the sum. */
  lemma WindowMean(s: real, p: nat, r: Option<real>)
    requires p > 0 && s >= 0.0 && r == Some(s / p as real)
    ensures r.value >= 0.0 && r.value * p as real == s
  {
    DivMul(s, p as real);
  }

  /** A mean over a single weighted term is that term. */
  lemma Restart(t: real, v: nat, price: real, w: nat, r: Option<real>)
    requires t == 0.0 + price * w as real && v == 0 + w
    requires r == if v == 0 then None else Some(t / v as real)
    ensures r == if w == 0 then None else Some(price)
  {
    if w > 0 {
      assert t == price * w as real && v as real == w as real;
      MulDivCancel(price, w as real);
      assert t / v as real == price;
    }
  }

  lemma MulDivCancel(a: real, v: real)
    requires v != 0.0
    ensures a * v / v == a
  {
  }

  /**
   * One more weighted term keeps a weighted sum between its bounds: from lo·a <= b <= hi·a and
   * lo <= t <= hi with weight v >= 0 follows lo·(a + v) <= b + t·v <= hi·(a + v).
   */
  lemma WeightedStep(lo: real, hi: real, a: real, b: real, t: real, v: real, total: real, sum: real)
    requires lo * a <= b <= hi * a && lo <= t <= hi && v >= 0.0
    requires total == a + v && sum == b + t * v
    ensures lo * total <= sum <= hi * total
  {
    MulMono(lo, t, v);
    MulMono(t, hi, v);
    assert lo * (a + v) == lo * a + lo * v;
    assert hi * (a + v) == hi * a + hi * v;
  }

  /** A skipped term leaves a weighted sum and its bounds as they were. */
  lemma WeightedSkip(lo: real, hi: real, a: real, b: real, total: real, sum: real)
    requires lo * a <= b <= hi * a && total == a && sum == b
    ensures lo * total <= sum <= hi * total
  {
  }

  /** The bounds of an empty weighted sum. */
  lemma WeightedEmpty(lo: real, hi: real, total: real, sum: real)
    requires total == 0.0 && sum == 0.0
    ensures lo * total <= sum <= hi * total
  {
  }

  // ----------------------------------------------------------------------------------
  // sort_values('timestamp')
  // ----------------------------------------------------------------------------------

  /** `a <= b` on naive datetimes. */
  predicate NotAfter(a: DateTime, b: DateTime)
  {
    !Before(b, a)
  }

  predicate SortedByTime(rows: seq<Row>)
  {
    forall i, j | 0 <= i < j < |rows| :: NotAfter(rows[i].timestamp, rows[j].timestamp)
  }

  /** A row placed into a sorted frame after every row not later than it. */
  function Insert(sorted: seq<Row>, x: Row): (r: seq<Row>)
    ensures multiset(r) == multiset(sorted) + multiset{x} && |r| == |sorted| + 1
    decreases |sorted|
  {
    if |sorted| == 0 then [x]
    else
      var n := |sorted| - 1;
      if Before(x.timestamp, sorted[n].timestamp) then
        assert sorted == sorted[..n] + [sorted[n]];
        Insert(sorted[..n], x) + [sorted[n]]
      else sorted + [x]
  }

  /** `df.sort_values('timestamp')` by insertion, rows with equal timestamps kept in input order. */
  function SortRows(rows: seq<Row>): (r: seq<Row>)
    ensures multiset(r) == multiset(rows) && |r| == |rows|
    decreases |rows|
  {
    if |rows| == 0 then []
    else
      var n := |rows| - 1;
      assert rows == rows[..n] + [rows[n]];
      Insert(SortRows(rows[..n]), rows[n])
  }

  lemma {:induction false} InsertSorted(sorted: seq<Row>, x: Row)
    requires SortedByTime(sorted)
    ensures SortedByTime(Insert(sorted, x))
    decreases |sorted|
  {
    if |sorted| > 0 {
      var n := |sorted| - 1;
      if Before(x.timestamp, sorted[n].timestamp) {
        var init := sorted[..n];
        InsertSorted(init, x);
        var front := Insert(init, x);
        var r := front + [sorted[n]];
        forall k | 0 <= k < |front|
          ensures NotAfter(front[k].timestamp, sorted[n].timestamp)
        {
          assert front[k] in multiset(front);
          assert front[k] in init || front[k] == x;
        }
        forall i, j | 0 <= i < j < |r|
          ensures NotAfter(r[i].timestamp, r[j].timestamp)
        {
          if j < |front| {
            assert r[i] == front[i] && r[j] == front[j];
          } else {
            assert r[i] == front[i];
          }
        }
      }
    }
  }

  /** The sort yields the same rows, ascending by timestamp. */
  lemma {:induction false} SortRowsSorted(rows: seq<Row>)
    ensures SortedByTime(SortRows(rows)) && multiset(SortRows(rows)) == multiset(rows)
    decreases |rows|
  {
    if |rows| > 0 {
      SortRowsSorted(rows[..|rows| - 1]);
      InsertSorted(SortRows(rows[..|rows| - 1]), rows[|rows| - 1]);
    }
  }

  // ----------------------------------------------------------------------------------
  // df['day'] = df['timestamp'].dt.date
  // ----------------------------------------------------------------------------------

  function Day(r: Row): (int, int, int)
  {
    r.timestamp.Date()
  }

  /** The last index below `n` whose row has day `d`. */
  function LastOfDayBelow(rows: seq<Row>, d: (int, int, int), n: nat): (r: Option<nat>)
    requires n <= |rows|
    ensures r.Some? ==> r.value < n && Day(rows[r.value]) == d && forall k | r.value < k < n :: Day(rows[k]) != d
    ensures r.None? ==> forall k | 0 <= k < n :: Day(rows[k]) != d
  {
    if n == 0 then None
    else if Day(rows[n - 1]) == d then Some(n - 1)
    else LastOfDayBelow(rows, d, n - 1)
  }

  /** The previous row of the same day, the one a grouped `ffill` copies from. */
  function PrevSameDay(rows: seq<Row>, i: nat): (r: Option<nat>)
    requires i < |rows|
  {
    LastOfDayBelow(rows, Day(rows[i]), i)
  }

  /** The first row of row i's day, the one `transform('first')` reads. */
  function FirstOfDay(rows: seq<Row>, i: nat): (j: nat)
    requires i < |rows|
    ensures j <= i && Day(rows[j]) == Day(rows[i])
    ensures forall k | 0 <= k < j :: Day(rows[k]) != Day(rows[i])
    decreases i
  {
    match PrevSameDay(rows, i)
    case None => i
    case Some(p) => FirstOfDay(rows, p)
  }

  /** `df.groupby('day')['open'].transform('first')` */
  function DayOpen(rows: seq<Row>, i: nat): real
    requires i < |rows|
  {
    rows[FirstOfDay(rows, i)].open
  }

  // ----------------------------------------------------------------------------------
  // _calculate_vwap
  // ----------------------------------------------------------------------------------

  /** `(high + low + close) / 3` */
  function Typical(r: Row): real
  {
    (r.high + r.low + r.close) / 3.0
  }

  /** The running sum of typical price times volume over the rows below `n` of day `d`. */
  function DayTpv(rows: seq<Row>, d: (int, int, int), n: nat): real
    requires n <= |rows|
  {
    if n == 0 then 0.0
    else DayTpv(rows, d, n - 1) + (if Day(rows[n - 1]) == d then Typical(rows[n - 1]) * rows[n - 1].volume as real else 0.0)
  }

  /** The running volume over the rows below `n` of day `d`. */
  function DayVolume(rows: seq<Row>, d: (int, int, int), n: nat): nat
    requires n <= |rows|
  {
    if n == 0 then 0
    else DayVolume(rows, d, n - 1) + (if Day(rows[n - 1]) == d then rows[n - 1].volume else 0)
  }

  /** The day's cumulative TPV over its cumulative volume; 0/0 (no volume yet) is NaN. */
  function Vwap(rows: seq<Row>, i: nat): Option<real>
    requires i < |rows|
  {
    var d := Day(rows[i]);
    var v := DayVolume(rows, d, i + 1);
    if v == 0 then None else Some(DayTpv(rows, d, i + 1) / v as real)
  }

  /** Running sums over rows of day `d` are bounded by the extreme typical prices of those rows. */
  lemma {:induction false} DayTpvBounds(rows: seq<Row>, d: (int, int, int), n: nat, lo: real, hi: real)
    requires n <= |rows|
    requires forall j | 0 <= j < n && Day(rows[j]) == d :: lo <= Typical(rows[j]) <= hi
    ensures lo * DayVolume(rows, d, n) as real <= DayTpv(rows, d, n) <= hi * DayVolume(rows, d, n) as real
    decreases n
  {
    if n > 0 {
      DayTpvBounds(rows, d, n - 1, lo, hi);
      DayTpvNext(rows, d, n, lo, hi);
    } else {
      WeightedEmpty(lo, hi, DayVolume(rows, d, n) as real, DayTpv(rows, d, n));
    }
  }

  /** One row more keeps the running sums of `DayTpvBounds` within their bounds. */
  lemma DayTpvNext(rows: seq<Row>, d: (int, int, int), n: nat, lo: real, hi: real)
    requires 0 < n <= |rows|
    requires Day(rows[n - 1]) == d ==> lo <= Typical(rows[n - 1]) <= hi
    requires lo * DayVolume(rows, d, n - 1) as real <= DayTpv(rows, d, n - 1) <= hi * DayVolume(rows, d, n - 1) as real
    ensures lo * DayVolume(rows, d, n) as real <= DayTpv(rows, d, n) <= hi * DayVolume(rows, d, n) as real
  {
    if Day(rows[n - 1]) == d {
      DayTpvTurn(rows, d, n, lo, hi);
    } else {
      DayTpvSkip(rows, d, n, lo, hi);
    }
  }

  /** A row of day `d` keeps the running sums of `DayTpvBounds` within their bounds. */
  lemma DayTpvTurn(rows: seq<Row>, d: (int, int, int), n: nat, lo: real, hi: real)
    requires 0 < n <= |rows| && Day(rows[n - 1]) == d && lo <= Typical(rows[n - 1]) <= hi
    requires lo * DayVolume(rows, d, n - 1) as real <= DayTpv(rows, d, n - 1) <= hi * DayVolume(rows, d, n - 1) as real
    ensures lo * DayVolume(rows, d, n) as real <= DayTpv(rows, d, n) <= hi * DayVolume(rows, d, n) as real
  {
    WeightedStep(lo, hi, DayVolume(rows, d, n - 1) as real, DayTpv(rows, d, n - 1), Typical(rows[n - 1]),
                 rows[n - 1].volume as real, DayVolume(rows, d, n) as real, DayTpv(rows, d, n));
  }

  /** A row of another day leaves the running sums of `DayTpvBounds` as they were. */
  lemma DayTpvSkip(rows: seq<Row>, d: (int, int, int), n: nat, lo: real, hi: real)
    requires 0 < n <= |rows| && Day(rows[n - 1]) != d
    requires lo * DayVolume(rows, d, n - 1) as real <= DayTpv(rows, d, n - 1) <= hi * DayVolume(rows, d, n - 1) as real
    ensures lo * DayVolume(rows, d, n) as real <= DayTpv(rows, d, n) <= hi * DayVolume(rows, d, n) as real
  {
    WeightedSkip(lo, hi, DayVolume(rows, d, n - 1) as real, DayTpv(rows, d, n - 1),
                 DayVolume(rows, d, n) as real, DayTpv(rows, d, n));
  }

  /** Running sums over the rows below `n` of day `d` are zero when none of them has that day. */
  lemma {:induction false} DaySumsEmpty(rows: seq<Row>, d: (int, int, int), n: nat)
    requires n <= |rows|
    requires forall j | 0 <= j < n :: Day(rows[j]) != d
    ensures DayTpv(rows, d, n) == 0.0 && DayVolume(rows, d, n) == 0
    decreases n
  {
    if n > 0 {
      DaySumsEmpty(rows, d, n - 1);
    }
  }

  /**
   * The VWAP is a volume-weighted mean of the day's typical prices so far: it lies between the
   * least and the greatest of them, it is missing exactly while the day has traded no volume,
   * and it restarts at the first row of each day.
   */
  lemma VwapBounds(rows: seq<Row>, i: nat, lo: real, hi: real)
    requires i < |rows|
    requires forall j | 0 <= j <= i && Day(rows[j]) == Day(rows[i]) :: lo <= Typical(rows[j]) <= hi
    ensures Vwap(rows, i).Some? <==> DayVolume(rows, Day(rows[i]), i + 1) > 0
    ensures Vwap(rows, i).Some? ==> lo <= Vwap(rows, i).value <= hi
  {
    var d, n := Day(rows[i]), i + 1;
    DayTpvBounds(rows, d, n, lo, hi);
    VwapMean(rows, i, d, n, lo, hi);
  }

  /** The VWAP lies within any bounds its running sums were scaled from. */
  lemma VwapMean(rows: seq<Row>, i: nat, d: (int, int, int), n: nat, lo: real, hi: real)
    requires i < |rows| && d == Day(rows[i]) && n == i + 1
    requires lo * DayVolume(rows, d, n) as real <= DayTpv(rows, d, n) <= hi * DayVolume(rows, d, n) as real
    ensures Vwap(rows, i).Some? <==> DayVolume(rows, d, n) > 0
    ensures Vwap(rows, i).Some? ==> lo <= Vwap(rows, i).value <= hi
  {
    MeanBounds(lo, hi, DayTpv(rows, d, n), DayVolume(rows, d, n), Vwap(rows, i));
  }

  /** At the first row of a day the VWAP is that row's typical price (NaN on zero volume). */
  lemma VwapRestarts(rows: seq<Row>, i: nat)
    requires i < |rows| && PrevSameDay(rows, i).None?
    ensures Vwap(rows, i) == if rows[i].volume == 0 then None else Some(Typical(rows[i]))
  {
    var d, n := Day(rows[i]), i + 1;
    DaySumsEmpty(rows, d, i);
    Restart(DayTpv(rows, d, n), DayVolume(rows, d, n), Typical(rows[i]), rows[i].volume, Vwap(rows, i));
  }

  // ----------------------------------------------------------------------------------
  // _calculate_atr
  // ----------------------------------------------------------------------------------

  /** The largest of high−low and the two gaps to the previous close; only high−low on the first row. */
  function TrueRange(rows: seq<Row>, i: nat): real
    requires i < |rows|
  {
    var r := rows[i];
    if i == 0 then r.high - r.low
    else Max(Max(r.high - r.low, Abs(r.high - rows[i - 1].close)), Abs(r.low - rows[i - 1].close))
  }

  /** The true ranges of rows lo .. hi-1, summed. */
  function SumTrueRange(rows: seq<Row>, lo: nat, hi: nat): real
    requires lo <= hi <= |rows|
    decreases hi - lo
  {
    if lo == hi then 0.0 else SumTrueRange(rows, lo, hi - 1) + TrueRange(rows, hi - 1)
  }

  /** `true_range.rolling(window=atr_period).mean()`: NaN until a whole window has passed. */
  function Atr(rows: seq<Row>, period: nat, i: nat): Option<real>
    requires i < |rows|
  {
    if period == 0 || i + 1 < period then None
    else Some(SumTrueRange(rows, i + 1 - period, i + 1) / period as real)
  }

  /** With every low at most its high, the true ranges of rows lo .. hi-1 sum to a non-negative number. */
  lemma {:induction false} SumTrueRangeNonNeg(rows: seq<Row>, lo: nat, hi: nat)
    requires lo <= hi <= |rows|
    requires forall j | lo <= j < hi :: rows[j].low <= rows[j].high
    ensures SumTrueRange(rows, lo, hi) >= 0.0
    decreases hi - lo
  {
    if lo < hi {
      SumTrueRangeNonNeg(rows, lo, hi - 1);
    }
  }

  /** With every low at most its high, the true ranges of rows lo .. hi-1 sum to at least each of them. */
  lemma {:induction false} SumTrueRangeBound(rows: seq<Row>, lo: nat, hi: nat)
    requires lo <= hi <= |rows|
    requires forall j | lo <= j < hi :: rows[j].low <= rows[j].high
    ensures SumTrueRange(rows, lo, hi) >= 0.0
    ensures forall j | lo <= j < hi :: SumTrueRange(rows, lo, hi) >= TrueRange(rows, j)
    decreases hi - lo
  {
    if lo < hi {
      SumTrueRangeBound(rows, lo, hi - 1);
    }
  }

  /** A bar's true range is at least its high−low spread and, after the first bar, both its gaps to the previous close. */
  lemma TrueRangeCovers(rows: seq<Row>, i: nat)
    requires i < |rows|
    ensures TrueRange(rows, i) >= rows[i].high - rows[i].low
    ensures i > 0 ==>
      TrueRange(rows, i) >= Abs(rows[i].high - rows[i - 1].close) && TrueRange(rows, i) >= Abs(rows[i].low - rows[i - 1].close)
  {
  }

  /**
   * The ATR exists exactly from the `atr_period`-th row on, across day boundaries; it is then the
   * mean of the window's true ranges, non-negative when every low is at most its high.
   */
  lemma AtrWindow(rows: seq<Row>, period: nat, i: nat)
    requires i < |rows|
    requires forall j | 0 <= j <= i :: rows[j].low <= rows[j].high
    ensures Atr(rows, period, i).Some? <==> 1 <= period <= i + 1
    ensures Atr(rows, period, i).Some? ==>
      Atr(rows, period, i).value >= 0.0
      && Atr(rows, period, i).value * period as real == SumTrueRange(rows, i + 1 - period, i + 1)
  {
    if 1 <= period <= i + 1 {
      var lo, hi := i + 1 - period, i + 1;
      SumTrueRangeNonNeg(rows, lo, hi);
      WindowMean(SumTrueRange(rows, lo, hi), period, Atr(rows, period, i));
    }
  }

  // ----------------------------------------------------------------------------------
  // _calculate_sigma_open
  // ----------------------------------------------------------------------------------

  /** Minutes since midnight minus 526, so that a bar stamped 08:46:00 gets 0. */
  function MinFromOpen(t: DateTime): real
  {
    t.MinuteOfDay() as real + t.second as real / 60.0 + t.micro as real / 60000000.0 - 526.0
  }

  /** On whole-minute stamps the bucket key is the minute of the day shifted to 08:46. */
  lemma MinFromOpenWholeMinute(t: DateTime)
    requires t.second == 0 && t.micro == 0
    ensures MinFromOpen(t) == (t.MinuteOfDay() - 526) as real
    ensures t.hour == 8 && t.minute == 46 ==> MinFromOpen(t) == 0.0
  {
  }

  /** `|close / day's first open − 1|`; a zero first open makes it missing. */
  function MoveOpen(rows: seq<Row>, i: nat): (r: Option<real>)
    requires i < |rows|
    ensures r.None? <==> DayOpen(rows, i) == 0.0
    ensures r.Some? ==> r.value >= 0.0
  {
    if DayOpen(rows, i) == 0.0 then None else Some(Abs(rows[i].close / DayOpen(rows, i) - 1.0))
  }

  /** The rows below `n` whose bucket key is `key`, in row order: the group `groupby('min_from_open')` forms. */
  function SameMinuteBefore(rows: seq<Row>, key: real, n: nat): (r: seq<nat>)
    requires n <= |rows|
    ensures forall k | 0 <= k < |r| :: r[k] < n && MinFromOpen(rows[r[k]].timestamp) == key
    ensures forall j | 0 <= j < n && MinFromOpen(rows[j].timestamp) == key :: j in r
    ensures forall a, b | 0 <= a < b < |r| :: r[a] < r[b]
    decreases n
  {
    if n == 0 then []
    else if MinFromOpen(rows[n - 1].timestamp) == key then SameMinuteBefore(rows, key, n - 1) + [n - 1]
    else SameMinuteBefore(rows, key, n - 1)
  }

  /** The last `w` entries of `idx` (all of them when there are fewer). */
  function Window(idx: seq<nat>, w: nat): (r: seq<nat>)
    ensures |r| == if |idx| <= w then |idx| else w
    ensures forall k | 0 <= k < |r| :: r[k] == idx[|idx| - |r| + k]
  {
    if |idx| <= w then idx else idx[|idx| - w..]
  }

  /** `move_open` of the rows at the given indices. */
  function Moves(rows: seq<Row>, idx: seq<nat>): (r: seq<Option<real>>)
    requires forall k | 0 <= k < |idx| :: idx[k] < |rows|
    ensures |r| == |idx|
    ensures forall k | 0 <= k < |idx| :: r[k] == MoveOpen(rows, idx[k])
  {
    if |idx| == 0 then [] else Moves(rows, idx[..|idx| - 1]) + [MoveOpen(rows, idx[|idx| - 1])]
  }

  /** The values that are not NaN, in order: what a rolling mean averages. */
  function Present(s: seq<Option<real>>): (r: seq<real>)
    ensures |r| <= |s|
    ensures forall x :: x in r <==> Some(x) in s
  {
    if |s| == 0 then []
    else
      assert s == s[..|s| - 1] + [s[|s| - 1]];
      Present(s[..|s| - 1]) + (if s[|s| - 1].Some? then [s[|s| - 1].value] else [])
  }

  function Sum(s: seq<real>): real
  {
    if |s| == 0 then 0.0 else Sum(s[..|s| - 1]) + s[|s| - 1]
  }

  /** `max(rolling_move // 2, 3)` */
  function MinPeriods(w: nat): (r: nat)
    ensures r >= 3 && r >= w / 2
  {
    if w / 2 < 3 then 3 else w / 2
  }

  /** Before the fills: the mean of the non-NaN moves among the last `w` earlier rows of row i's bucket. */
  function RawSigma(p: Params, rows: seq<Row>, i: nat): Option<real>
    requires i < |rows|
  {
    var win := Window(SameMinuteBefore(rows, MinFromOpen(rows[i].timestamp), i), p.rollingMove);
    var vals := Present(Moves(rows, win));
    if |vals| >= MinPeriods(p.rollingMove) then Some(Sum(vals) / |vals| as real) else None
  }

  lemma {:induction false} SumNonNeg(s: seq<real>)
    requires forall k | 0 <= k < |s| :: s[k] >= 0.0
    ensures Sum(s) >= 0.0
  {
    if |s| > 0 {
      SumNonNeg(s[..|s| - 1]);
    }
  }

  lemma DivNonNeg(t: real, v: real)
    requires t >= 0.0 && v > 0.0
    ensures t / v >= 0.0
  {
    DivBounds(t, v, 0.0, t / v);
  }


  /** With every day open non-zero, every earlier bar of the bucket has a move, so the sigma exists exactly when the window holds `MinPeriods` of them. */
  lemma {:induction false} PresentAll(s: seq<Option<real>>)
    requires forall k | 0 <= k < |s| :: s[k].Some?
    ensures |Present(s)| == |s|
  {
    if |s| > 0 {
      PresentAll(s[..|s| - 1]);
    }
  }

  /**
   * The raw `sigma_open` of row i, when it exists, is a non-negative mean over at least
   * `max(rolling_move // 2, 3)` earlier bars of the same minute of the day, which needs a window
   * of at least that size.
   */
  lemma RawSigmaMeaning(p: Params, rows: seq<Row>, i: nat)
    requires i < |rows|
    ensures RawSigma(p, rows, i).Some? ==>
      RawSigma(p, rows, i).value >= 0.0
      && |SameMinuteBefore(rows, MinFromOpen(rows[i].timestamp), i)| >= MinPeriods(p.rollingMove)
      && p.rollingMove >= MinPeriods(p.rollingMove)
  {
    var idx := SameMinuteBefore(rows, MinFromOpen(rows[i].timestamp), i);
    var win := Window(idx, p.rollingMove);
    var vals := Present(Moves(rows, win));
    MeanOfMoves(rows, win, vals, MinPeriods(p.rollingMove), RawSigma(p, rows, i));
    assert |vals| <= |win| <= |idx| && |win| <= p.rollingMove;
  }

  /** The mean of the present moves at some rows, taken when there are at least `mp` of them, is non-negative. */
  lemma MeanOfMoves(rows: seq<Row>, win: seq<nat>, vals: seq<real>, mp: nat, r: Option<real>)
    requires forall k | 0 <= k < |win| :: win[k] < |rows|
    requires vals == Present(Moves(rows, win)) && mp > 0
    requires r == if |vals| >= mp then Some(Sum(vals) / |vals| as real) else None
    ensures r.Some? ==> r.value >= 0.0 && |vals| >= mp
  {
    PresentNonNeg(Moves(rows, win));
    MeanNonNeg(vals, mp, r);
  }

  lemma PresentNonNeg(s: seq<Option<real>>)
    requires forall k | 0 <= k < |s| :: s[k].Some? ==> s[k].value >= 0.0
    ensures forall k | 0 <= k < |Present(s)| :: Present(s)[k] >= 0.0
  {
    var vals := Present(s);
    forall k | 0 <= k < |vals|
      ensures vals[k] >= 0.0
    {
      assert Some(vals[k]) in s;
    }
  }

  lemma MeanNonNeg(vals: seq<real>, mp: nat, r: Option<real>)
    requires forall k | 0 <= k < |vals| :: vals[k] >= 0.0
    requires mp > 0 && r == if |vals| >= mp then Some(Sum(vals) / |vals| as real) else None
    ensures r.Some? ==> r.value >= 0.0 && |vals| >= mp
  {
    SumNonNeg(vals);
    if |vals| >= mp {
      DivNonNeg(Sum(vals), |vals| as real);
    }
  }

  /**
   * When every earlier bar's day opens at a non-zero price, every bar of the bucket has a move,
   * so the raw sigma exists exactly when the window holds `max(rolling_move // 2, 3)` bars.
   */
  lemma RawSigmaExists(p: Params, rows: seq<Row>, i: nat)
    requires i < |rows|
    requires forall j | 0 <= j < i :: DayOpen(rows, j) != 0.0
    ensures RawSigma(p, rows, i).Some? <==>
      |Window(SameMinuteBefore(rows, MinFromOpen(rows[i].timestamp), i), p.rollingMove)| >= MinPeriods(p.rollingMove)
  {
    var win := Window(SameMinuteBefore(rows, MinFromOpen(rows[i].timestamp), i), p.rollingMove);
    PresentAll(Moves(rows, win));
  }

  // df.groupby('day')['sigma_open'].ffill().bfill()

  /** `groupby('day').ffill()`: a missing value takes the latest earlier value of the same day. */
  function FFillByDay(rows: seq<Row>, raw: seq<Option<real>>, i: nat): Option<real>
    requires |raw| == |rows| && i < |rows|
    decreases i
  {
    if raw[i].Some? then raw[i]
    else match PrevSameDay(rows, i)
      case None => None
      case Some(j) => FFillByDay(rows, raw, j)
  }

  /** Row j is where the forward fill of row i takes its value from: the latest present one of i's day up to i. */
  predicate FilledFrom(rows: seq<Row>, raw: seq<Option<real>>, i: nat, j: nat)
  {
    j <= i < |rows| == |raw| && Day(rows[j]) == Day(rows[i]) && raw[j].Some?
    && forall k | j < k <= i && Day(rows[k]) == Day(rows[i]) :: raw[k].None?
  }

  lemma {:induction false} FFillByDayMeaning(rows: seq<Row>, raw: seq<Option<real>>, i: nat)
    requires |raw| == |rows| && i < |rows|
    ensures FFillByDay(rows, raw, i).Some? ==>
      exists j: nat :: FilledFrom(rows, raw, i, j) && FFillByDay(rows, raw, i) == raw[j]
    ensures FFillByDay(rows, raw, i).None? ==>
      forall j | 0 <= j <= i && Day(rows[j]) == Day(rows[i]) :: raw[j].None?
    decreases i
  {
    if raw[i].Some? {
      assert FilledFrom(rows, raw, i, i);
    } else {
      match PrevSameDay(rows, i)
      case None =>
      case Some(q) =>
        FFillByDayMeaning(rows, raw, q);
        if FFillByDay(rows, raw, q).Some? {
          var j: nat :| FilledFrom(rows, raw, q, j) && FFillByDay(rows, raw, q) == raw[j];
          assert FilledFrom(rows, raw, i, j);
        }
    }
  }

  /** `bfill()` over the whole series: a missing value takes the next present one, on any later day. */
  function BFill(s: seq<Option<real>>, i: nat): Option<real>
    requires i < |s|
    decreases |s| - i
  {
    if s[i].Some? then s[i]
    else if i + 1 < |s| then BFill(s, i + 1)
    else None
  }

  /** Index k is where the backward fill of index i takes its value from: the first present one from i on. */
  predicate BackFrom(s: seq<Option<real>>, i: nat, k: nat)
  {
    i <= k < |s| && s[k].Some? && forall m | i <= m < k :: s[m].None?
  }

  lemma {:induction false} BFillMeaning(s: seq<Option<real>>, i: nat)
    requires i < |s|
    ensures BFill(s, i).Some? ==> exists k: nat :: BackFrom(s, i, k) && BFill(s, i) == s[k]
    ensures BFill(s, i).None? ==> forall k | i <= k < |s| :: s[k].None?
    decreases |s| - i
  {
    if s[i].Some? {
      assert BackFrom(s, i, i);
    } else if i + 1 < |s| {
      BFillMeaning(s, i + 1);
      if BFill(s, i + 1).Some? {
        var k: nat :| BackFrom(s, i + 1, k) && BFill(s, i + 1) == s[k];
        assert BackFrom(s, i, k);
      }
    }
  }

  /** The raw sigma of every row. */
  function RawSigmas(p: Params, rows: seq<Row>): (r: seq<Option<real>>)
    ensures |r| == |rows|
    ensures forall i | 0 <= i < |rows| :: r[i] == RawSigma(p, rows, i)
  {
    seq(|rows|, i requires 0 <= i < |rows| => RawSigma(p, rows, i))
  }

  /** The per-day forward fill of every row. */
  function Filled(rows: seq<Row>, raw: seq<Option<real>>): (r: seq<Option<real>>)
    requires |raw| == |rows|
    ensures |r| == |rows|
    ensures forall i | 0 <= i < |rows| :: r[i] == FFillByDay(rows, raw, i)
  {
    seq(|rows|, i requires 0 <= i < |rows| => FFillByDay(rows, raw, i))
  }

  /** The back fill of every row. */
  function BackFilled(f: seq<Option<real>>): (r: seq<Option<real>>)
    ensures |r| == |f|
    ensures forall i | 0 <= i < |f| :: r[i] == BFill(f, i)
  {
    seq(|f|, i requires 0 <= i < |f| => BFill(f, i))
  }

  /** `_calculate_sigma_open`: the raw sigmas, forward-filled within each day, then back-filled. */
  function SigmaOpen(p: Params, rows: seq<Row>): (r: seq<Option<real>>)
    ensures |r| == |rows|
  {
    BackFilled(Filled(rows, RawSigmas(p, rows)))
  }


  predicate AnySome(s: seq<Option<real>>)
  {
    exists i :: 0 <= i < |s| && s[i].Some?
  }

  /** Some row has a raw `sigma_open`. */
  predicate AnyRawSigma(p: Params, rows: seq<Row>)
  {
    exists j :: 0 <= j < |rows| && RawSigma(p, rows, j).Some?
  }

  /**
   * Some row ends up with a `sigma_open` exactly when some row has a raw one; a filled value is
   * always a raw value of some row, and so never negative.
   */
  lemma SigmaOpenMeaning(p: Params, rows: seq<Row>)
    ensures AnySome(SigmaOpen(p, rows)) <==> AnyRawSigma(p, rows)
    ensures forall i | 0 <= i < |rows| && SigmaOpen(p, rows)[i].Some? :: SigmaOpen(p, rows)[i].value >= 0.0
  {
    var raw := RawSigmas(p, rows);
    var f := Filled(rows, raw);
    var sig := SigmaOpen(p, rows);
    forall i | 0 <= i < |rows| && sig[i].Some?
      ensures exists j: nat :: j < |rows| && raw[j] == sig[i]
    {
      BFillMeaning(f, i);
      var k: nat :| BackFrom(f, i, k) && BFill(f, i) == f[k];
      FFillByDayMeaning(rows, raw, k);
      var j: nat :| FilledFrom(rows, raw, k, j) && FFillByDay(rows, raw, k) == raw[j];
      assert raw[j] == sig[i];
    }
    forall i | 0 <= i < |rows| && sig[i].Some?
      ensures sig[i].value >= 0.0
    {
      var j: nat :| j < |rows| && raw[j] == sig[i];
      RawSigmaMeaning(p, rows, j);
    }
    if j :| 0 <= j < |rows| && RawSigma(p, rows, j).Some? {
      assert f[j] == raw[j];
      assert sig[j] == f[j];
    }
  }

  /**
   * The last row that has a `sigma_open` has it from the forward fill of its own day, not from the
   * back fill: that value comes from rows up to it, never from a later bar.
   */
  lemma LastSigmaIsOwn(p: Params, rows: seq<Row>, k: nat)
    requires k < |rows| && SigmaOpen(p, rows)[k].Some?
    requires forall m | k < m < |rows| :: SigmaOpen(p, rows)[m].None?
    ensures SigmaOpen(p, rows)[k] == Filled(rows, RawSigmas(p, rows))[k]
  {
    LastBackFillIsOwn(Filled(rows, RawSigmas(p, rows)), k);
  }

  /** The last back-filled value that is present is the series' own value there. */
  lemma LastBackFillIsOwn(f: seq<Option<real>>, k: nat)
    requires k < |f| && BackFilled(f)[k].Some?
    requires forall m | k < m < |f| :: BackFilled(f)[m].None?
    ensures BackFilled(f)[k] == f[k]
  {
    if k + 1 < |f| {
      assert BackFilled(f)[k + 1].None?;
    }
  }

  // ----------------------------------------------------------------------------------
  // _calculate_bands
  // ----------------------------------------------------------------------------------

  /**
   * The previous day's last close, mapped onto every row of a day: the close of the row just
   * before the day's first row; missing on the first day of the frame.
   */
  function PrevClose(rows: seq<Row>, i: nat): Option<real>
    requires i < |rows|
  {
    var f := FirstOfDay(rows, i);
    if f == 0 then None else Some(rows[f - 1].close)
  }

  /** `max(open_price, prev_close_map)` across the row, skipping NaN. */
  function UbBase(rows: seq<Row>, i: nat): real
    requires i < |rows|
  {
    match PrevClose(rows, i)
    case None => DayOpen(rows, i)
    case Some(c) => Max(DayOpen(rows, i), c)
  }

  /** `min(open_price, prev_close_map)` across the row, skipping NaN. */
  function LbBase(rows: seq<Row>, i: nat): real
    requires i < |rows|
  {
    match PrevClose(rows, i)
    case None => DayOpen(rows, i)
    case Some(c) => Min(DayOpen(rows, i), c)
  }

  /** `UB = ub_base * (1 + m * sigma_open)`, NaN where sigma is. */
  function Upper(p: Params, rows: seq<Row>, sigma: Option<real>, i: nat): Option<real>
    requires i < |rows|
  {
    if sigma.None? then None else Some(UbBase(rows, i) * (1.0 + p.bandMultiplier * sigma.value))
  }

  /** `LB = lb_base * (1 - m * sigma_open)`, NaN where sigma is. */
  function Lower(p: Params, rows: seq<Row>, sigma: Option<real>, i: nat): Option<real>
    requires i < |rows|
  {
    if sigma.None? then None else Some(LbBase(rows, i) * (1.0 - p.bandMultiplier * sigma.value))
  }

  /** Widening both anchors by a non-negative fraction keeps them ordered. */
  lemma Widen(lo: real, hi: real, k: real, ub: real, lb: real)
    requires 0.0 <= lo <= hi && k >= 0.0
    requires ub == hi * (1.0 + k) && lb == lo * (1.0 - k)
    ensures lb <= lo <= hi <= ub
  {
    MulNonNeg(hi, k);
    MulNonNeg(lo, k);
    assert hi * (1.0 + k) == hi + hi * k;
    assert lo * (1.0 - k) == lo - lo * k;
  }

  /**
   * The anchors: the upper one is the larger and the lower one the smaller of the day's first
   * open and the previous day's last close, both the day open on the frame's first day.
   */
  lemma BandAnchors(rows: seq<Row>, i: nat)
    requires i < |rows|
    ensures LbBase(rows, i) <= DayOpen(rows, i) <= UbBase(rows, i)
    ensures PrevClose(rows, i).Some? ==> LbBase(rows, i) <= PrevClose(rows, i).value <= UbBase(rows, i)
    ensures PrevClose(rows, i).Some? ==>
      (UbBase(rows, i) == DayOpen(rows, i) || UbBase(rows, i) == PrevClose(rows, i).value)
      && (LbBase(rows, i) == DayOpen(rows, i) || LbBase(rows, i) == PrevClose(rows, i).value)
    ensures PrevClose(rows, i).None? <==> Day(rows[0]) == Day(rows[i])
    ensures PrevClose(rows, i).None? ==> UbBase(rows, i) == LbBase(rows, i) == DayOpen(rows, i)
  {
  }

  /**
   * With non-negative prices, multiplier and sigma, the lower band is at most the lower anchor,
   * which is at most the upper anchor, which is at most the upper band.
   */
  lemma BandsOrdered(p: Params, rows: seq<Row>, sigma: real, i: nat)
    requires i < |rows| && sigma >= 0.0 && p.bandMultiplier >= 0.0
    requires forall j | 0 <= j <= i :: rows[j].open >= 0.0 && rows[j].close >= 0.0
    ensures Lower(p, rows, Some(sigma), i).value <= LbBase(rows, i) <= UbBase(rows, i) <= Upper(p, rows, Some(sigma), i).value
  {
    BandAnchors(rows, i);
    MulNonNeg(p.bandMultiplier, sigma);
    Widen(LbBase(rows, i), UbBase(rows, i), p.bandMultiplier * sigma,
          Upper(p, rows, Some(sigma), i).value, Lower(p, rows, Some(sigma), i).value);
  }


  // ----------------------------------------------------------------------------------
  // create_features
  // ----------------------------------------------------------------------------------

  /** One row of the frame `create_features` returns. */
  datatype Features = Features(
    row: Row,
    vwap: Option<real>,
    atr: Option<real>,
    minFromOpen: real,
    moveOpen: Option<real>,
    sigma: Option<real>,
    ub: Option<real>,
    lb: Option<real>)

  /** The feature columns of row i of the sorted rows, given the `sigma_open` column. */
  function FeaturesAt(p: Params, rows: seq<Row>, sigma: seq<Option<real>>, i: nat): (f: Features)
    requires |sigma| == |rows| && i < |rows|
    ensures f.row == rows[i] && f.sigma == sigma[i]
    ensures f.ub.Some? <==> sigma[i].Some?
    ensures f.lb.Some? <==> sigma[i].Some?
  {
    Features(rows[i], Vwap(rows, i), Atr(rows, p.atrPeriod, i), MinFromOpen(rows[i].timestamp),
             MoveOpen(rows, i), sigma[i], Upper(p, rows, sigma[i], i), Lower(p, rows, sigma[i], i))
  }

  /**
   * `create_features`: an empty frame below 100 rows; otherwise the rows sorted by time with their
   * features. A `rolling_move` below 3 makes pandas refuse `min_periods` larger than the window.
   */
  function CreateFeatures(p: Params, df: seq<Row>): (r: Result<seq<Features>>)
    ensures r.Err? <==> |df| >= MinRows && p.rollingMove < MinPeriods(p.rollingMove)
    ensures r.Ok? && |df| < MinRows ==> r.value == []
    ensures r.Ok? && |df| >= MinRows ==> |r.value| == |df|
  {
    if |df| < MinRows then Ok([])
    else if p.rollingMove < MinPeriods(p.rollingMove) then Err(ValueError("min_periods must be <= window"))
    else
      var rows := SortRows(df);
      Ok(FeatureRows(p, rows, SigmaOpen(p, rows), |rows|))
  }

  /** The features of the rows below `n`. */
  function FeatureRows(p: Params, rows: seq<Row>, sigma: seq<Option<real>>, n: nat): (fs: seq<Features>)
    requires |sigma| == |rows| && n <= |rows|
    ensures |fs| == n
    ensures forall i | 0 <= i < n :: fs[i].row == rows[i] && fs[i].sigma == sigma[i]
    ensures forall i | 0 <= i < n :: HasBands(fs[i]) <==> sigma[i].Some?
    decreases n
  {
    if n == 0 then [] else FeatureRows(p, rows, sigma, n - 1) + [FeaturesAt(p, rows, sigma, n - 1)]
  }

  lemma {:induction false} FeatureRowsAt(p: Params, rows: seq<Row>, sigma: seq<Option<real>>, n: nat, i: nat)
    requires |sigma| == |rows| && i < n <= |rows|
    ensures FeatureRows(p, rows, sigma, n)[i] == FeaturesAt(p, rows, sigma, i)
    decreases n
  {
    if i < n - 1 {
      FeatureRowsAt(p, rows, sigma, n - 1, i);
    }
  }

  /** The frame `create_features` returns holds the input rows, sorted by timestamp. */
  lemma CreateFeaturesRows(p: Params, df: seq<Row>)
    requires CreateFeatures(p, df).Ok? && |df| >= MinRows
    ensures SortedByTime(RowsOf(CreateFeatures(p, df).value))
    ensures multiset(RowsOf(CreateFeatures(p, df).value)) == multiset(df)
  {
    var rows := SortRows(df);
    var sigma := SigmaOpen(p, rows);
    SortRowsSorted(df);
    RowsOfFeatureRows(p, rows, sigma);
    assert CreateFeatures(p, df).value == FeatureRows(p, rows, sigma, |rows|);
  }

  lemma RowsOfFeatureRows(p: Params, rows: seq<Row>, sigma: seq<Option<real>>)
    requires |sigma| == |rows|
    ensures RowsOf(FeatureRows(p, rows, sigma, |rows|)) == rows
  {
    var fs := FeatureRows(p, rows, sigma, |rows|);
    assert forall k | 0 <= k < |rows| :: RowsOf(fs)[k] == rows[k];
  }

  function RowsOf(fs: seq<Features>): (r: seq<Row>)
    ensures |r| == |fs| && forall k | 0 <= k < |fs| :: r[k] == fs[k].row
  {
    seq(|fs|, k requires 0 <= k < |fs| => fs[k].row)
  }

  predicate HasBands(f: Features)
  {
    f.ub.Some? && f.lb.Some?
  }

  /** `valid_rows.iloc[-1]`: the last row below `n` with both bands. */
  function LastValid(fs: seq<Features>, n: nat): (r: Option<nat>)
    requires n <= |fs|
    ensures r.Some? ==> r.value < n && HasBands(fs[r.value]) && forall m | r.value < m < n :: !HasBands(fs[m])
    ensures r.None? ==> forall m | 0 <= m < n :: !HasBands(fs[m])
  {
    if n == 0 then None
    else if HasBands(fs[n - 1]) then Some(n - 1)
    else LastValid(fs, n - 1)
  }

  /** `df['timestamp'].dt.date.nunique()` */
  function DistinctDays(df: seq<Row>): nat
  {
    |set r | r in df :: Day(r)|
  }

  // ----------------------------------------------------------------------------------
  // get_latest_signal
  // ----------------------------------------------------------------------------------

  /** The dictionary `get_latest_signal` returns; `latest` is the row its prices and features come from. */
  datatype Signal = Signal(monitor: int, trade: int, reason: string, observe: bool, latest: Option<Features>)

  /** The VWAP filter: off, or the close is beyond a present VWAP in the band's direction. */
  predicate VwapConfirms(p: Params, f: Features, up: bool)
  {
    !p.useVwap || (f.vwap.Some? && (if up then f.row.close > f.vwap.value else f.row.close < f.vwap.value))
  }

  /** The monitor signal and reason of a row with both bands. */
  function Classify(p: Params, f: Features): (int, string)
    requires HasBands(f)
  {
    if f.row.close > f.ub.value then
      if VwapConfirms(p, f, true) then (1, "band_cross_up") else (0, "none")
    else if f.row.close < f.lb.value then
      if VwapConfirms(p, f, false) then (-1, "band_cross_down") else (0, "none")
    else (0, "none")
  }

  /** `get_latest_signal`, with the clock reading `now` as a parameter. */
  function GetLatestSignal(p: Params, df: seq<Row>, now: DateTime): Result<Signal>
  {
    match CreateFeatures(p, df)
    case Err(e) => Err(e)
    case Ok(fs) => SignalOf(p, fs, DistinctDays(df), now)
  }

  /** The rest of `get_latest_signal` once the features `fs` of a frame with `days` distinct days exist. */
  function SignalOf(p: Params, fs: seq<Features>, days: nat, now: DateTime): Result<Signal>
  {
      if |fs| == 0 then Ok(Signal(0, 0, "insufficient_data", false, None))
      else match LastValid(fs, |fs|)
        case None => Ok(Signal(0, 0, "insufficient_data_days_" + NatToString(days), false, None))
        case Some(k) =>
          if p.observeInterval == 0 then Err(ZeroDivisionError)
          else
            var observe := now.minute % p.observeInterval == 0;
            var (monitor, reason) := Classify(p, fs[k]);
            Ok(Signal(monitor, if observe then monitor else 0, reason, observe, Some(fs[k])))
  }


  /**
   * A row with both bands is +1 exactly when it closes above the upper band with the VWAP
   * confirming upwards, −1 exactly when it does not close above the upper band but closes below
   * the lower one with the VWAP confirming downwards, and 0 otherwise; the reason names the case.
   * With the bands ordered, −1 no longer depends on the upper band.
   */
  lemma ClassifyExact(p: Params, f: Features)
    requires HasBands(f)
    ensures Classify(p, f).0 == 1 <==> f.row.close > f.ub.value && VwapConfirms(p, f, true)
    ensures Classify(p, f).0 == -1 <==> f.row.close <= f.ub.value && f.row.close < f.lb.value && VwapConfirms(p, f, false)
    ensures -1 <= Classify(p, f).0 <= 1
    ensures Classify(p, f).1 == (if Classify(p, f).0 == 1 then "band_cross_up"
                                 else if Classify(p, f).0 == -1 then "band_cross_down" else "none")
    ensures f.lb.value <= f.ub.value ==>
      (Classify(p, f).0 == -1 <==> f.row.close < f.lb.value && VwapConfirms(p, f, false))
  {
  }

  /** Row k of the features is the last one with both bands. */
  predicate LatestWithBands(fs: seq<Features>, k: nat)
  {
    k < |fs| && HasBands(fs[k]) && forall m | k < m < |fs| :: !HasBands(fs[m])
  }

  lemma StartsWithConcat(a: string, b: string)
    ensures StartsWith(a + b, a)
  {
    assert (a + b)[..|a|] == a;
  }

  /**
   * What `get_latest_signal` reports: without a row carrying both bands, no signal and a reason
   * starting with "insufficient_data"; otherwise the classification of the last such row, a
   * reason not starting with it, and a trade signal equal to the monitor signal exactly at
   * observation minutes.
   */
  lemma SignalOfShape(p: Params, fs: seq<Features>, days: nat, now: DateTime)
    requires SignalOf(p, fs, days, now).Ok?
    ensures var s := SignalOf(p, fs, days, now).value;
      s.latest.None? ==>
        s.monitor == 0 && s.trade == 0 && !s.observe && StartsWith(s.reason, "insufficient_data")
        && (|fs| == 0 ==> s.reason == "insufficient_data")
        && (|fs| > 0 ==> s.reason == "insufficient_data_days_" + NatToString(days) && forall m | 0 <= m < |fs| :: !HasBands(fs[m]))
    ensures var s := SignalOf(p, fs, days, now).value;
      s.latest.Some? ==>
        HasBands(s.latest.value)
        && (exists k: nat :: LatestWithBands(fs, k) && s.latest.value == fs[k])
        && (s.monitor, s.reason) == Classify(p, s.latest.value)
        && !StartsWith(s.reason, "insufficient_data")
        && p.observeInterval != 0
        && s.observe == (now.minute % p.observeInterval == 0)
        && s.trade == (if s.observe then s.monitor else 0)
  {
    if |fs| == 0 {
      StartsWithConcat("insufficient_data", "");
      assert "insufficient_data" + "" == "insufficient_data";
    } else {
      match LastValid(fs, |fs|)
      case None =>
        StartsWithConcat("insufficient_data", "_days_" + NatToString(days));
        assert "insufficient_data" + ("_days_" + NatToString(days)) == "insufficient_data_days_" + NatToString(days);
      case Some(k) =>
        assert LatestWithBands(fs, k);
        ClassifyExact(p, fs[k]);
    }
  }

  /** Some row has both bands. */
  predicate AnyBands(fs: seq<Features>)
  {
    exists i :: 0 <= i < |fs| && HasBands(fs[i])
  }

  lemma BandsIffSigma(fs: seq<Features>, sigma: seq<Option<real>>)
    requires |fs| == |sigma| && forall i | 0 <= i < |fs| :: HasBands(fs[i]) <==> sigma[i].Some?
    ensures AnyBands(fs) <==> AnySome(sigma)
  {
    if AnyBands(fs) {
      var i :| 0 <= i < |fs| && HasBands(fs[i]);
      assert sigma[i].Some?;
    }
    if AnySome(sigma) {
      var i :| 0 <= i < |sigma| && sigma[i].Some?;
      assert HasBands(fs[i]);
    }
  }

  /** Some row of the features has both bands exactly when some sorted row has a raw `sigma_open`. */
  lemma FeaturesWithBands(p: Params, df: seq<Row>)
    requires CreateFeatures(p, df).Ok? && |df| >= MinRows
    ensures AnyBands(CreateFeatures(p, df).value) <==> AnyRawSigma(p, SortRows(df))
  {
    var rows := SortRows(df);
    var sigma := SigmaOpen(p, rows);
    BandsIffSigma(FeatureRows(p, rows, sigma, |rows|), sigma);
    SigmaOpenMeaning(p, rows);
  }

  /**
   * `get_latest_signal` on a whole frame: "insufficient_data" below 100 rows; an error exactly when
   * `rolling_move` is below 3 or, with some row carrying bands, the observation interval is 0; and
   * no latest row exactly when no sorted row has a raw `sigma_open`.
   */
  lemma LatestSignalOfFrame(p: Params, df: seq<Row>, now: DateTime)
    ensures |df| < MinRows ==> GetLatestSignal(p, df, now) == Ok(Signal(0, 0, "insufficient_data", false, None))
    ensures GetLatestSignal(p, df, now).Err? <==>
      |df| >= MinRows
      && (p.rollingMove < MinPeriods(p.rollingMove)
          || (p.observeInterval == 0 && AnyRawSigma(p, SortRows(df))))
    ensures GetLatestSignal(p, df, now).Ok? && |df| >= MinRows ==>
      (GetLatestSignal(p, df, now).value.latest.None? <==> !AnyRawSigma(p, SortRows(df)))
  {
    if |df| >= MinRows && p.rollingMove >= MinPeriods(p.rollingMove) {
      var fs := CreateFeatures(p, df).value;
      FeaturesWithBands(p, df);
      var r := LastValid(fs, |fs|);
      if r.Some? {
        assert HasBands(fs[r.value]);
      }
    }
  }


  /** Row k of the sorted rows is the one `f` describes, with the `sigma_open` of its own day's forward fill. */
  predicate OwnSigmaAt(p: Params, rows: seq<Row>, f: Features, k: nat)
  {
    k < |rows| && f == FeatureRows(p, rows, SigmaOpen(p, rows), |rows|)[k]
    && f.sigma == Filled(rows, RawSigmas(p, rows))[k]
  }

  /**
   * The row a signal is computed from is a sorted row whose `sigma_open` comes from the forward
   * fill of its own day, never from the back fill of a later bar; that sigma is non-negative.
   */
  lemma LatestRowOwnSigma(p: Params, df: seq<Row>, now: DateTime)
    requires GetLatestSignal(p, df, now).Ok? && GetLatestSignal(p, df, now).value.latest.Some?
    ensures exists k: nat :: OwnSigmaAt(p, SortRows(df), GetLatestSignal(p, df, now).value.latest.value, k)
    ensures GetLatestSignal(p, df, now).value.latest.value.sigma.Some?
            && GetLatestSignal(p, df, now).value.latest.value.sigma.value >= 0.0
  {
    var rows := SortRows(df);
    var sigma := SigmaOpen(p, rows);
    var fs := FeatureRows(p, rows, sigma, |rows|);
    FrameSignal(p, df, now, rows, sigma, fs);
    SignalRowOwnSigma(p, rows, sigma, fs, DistinctDays(df), now);
  }

  /** A frame that yields a signal is one the features of its sorted rows produced. */
  lemma FrameSignal(p: Params, df: seq<Row>, now: DateTime, rows: seq<Row>, sigma: seq<Option<real>>, fs: seq<Features>)
    requires rows == SortRows(df) && sigma == SigmaOpen(p, rows) && fs == FeatureRows(p, rows, sigma, |rows|)
    requires GetLatestSignal(p, df, now).Ok? && GetLatestSignal(p, df, now).value.latest.Some?
    ensures GetLatestSignal(p, df, now) == SignalOf(p, fs, DistinctDays(df), now)
  {
    LatestSignalOfFrame(p, df, now);
    assert CreateFeatures(p, df) == Ok(fs);
  }

  /** The features a signal reports are those of a sorted row carrying its own forward-filled sigma. */
  lemma SignalRowOwnSigma(p: Params, rows: seq<Row>, sigma: seq<Option<real>>, fs: seq<Features>, days: nat, now: DateTime)
    requires sigma == SigmaOpen(p, rows) && fs == FeatureRows(p, rows, sigma, |rows|)
    requires SignalOf(p, fs, days, now).Ok? && SignalOf(p, fs, days, now).value.latest.Some?
    ensures exists k: nat :: OwnSigmaAt(p, rows, SignalOf(p, fs, days, now).value.latest.value, k)
    ensures SignalOf(p, fs, days, now).value.latest.value.sigma.Some?
            && SignalOf(p, fs, days, now).value.latest.value.sigma.value >= 0.0
  {
    SignalOfShape(p, fs, days, now);
    var f := SignalOf(p, fs, days, now).value.latest.value;
    var k: nat :| LatestWithBands(fs, k) && f == fs[k];
    LastSigmaIsOwn(p, rows, k);
    assert OwnSigmaAt(p, rows, f, k);
    SigmaOpenMeaning(p, rows);
  }

  /**
   * With non-negative prices and multiplier, the row a signal is computed from has its lower band
   * at most its upper band, so it cannot be both above the one and below the other.
   */
  lemma LatestBandsOrdered(p: Params, df: seq<Row>, now: DateTime)
    requires GetLatestSignal(p, df, now).Ok? && GetLatestSignal(p, df, now).value.latest.Some?
    requires p.bandMultiplier >= 0.0 && forall r | r in df :: r.open >= 0.0 && r.close >= 0.0
    ensures var f := GetLatestSignal(p, df, now).value.latest.value;
      f.lb.Some? && f.ub.Some? && f.lb.value <= f.ub.value
  {
    LatestRowOwnSigma(p, df, now);
    var rows := SortRows(df);
    var f := GetLatestSignal(p, df, now).value.latest.value;
    var k: nat :| OwnSigmaAt(p, rows, f, k);
    forall j | 0 <= j <= k
      ensures rows[j].open >= 0.0 && rows[j].close >= 0.0
    {
      assert rows[j] in multiset(rows);
    }
    FeatureRowsAt(p, rows, SigmaOpen(p, rows), |rows|, k);
    BandsOrdered(p, rows, f.sigma.value, k);
  }

}
