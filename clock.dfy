/**
 * Civil date-times as Python's `datetime` handles them, and the KST helpers of
 * src/services/time_service.py: naive and offset-aware moments, minute arithmetic across
 * day, month and year boundaries, conversion to naive Korea Standard Time (UTC+9),
 * flooring to the minute, `isoformat` and `fromisoformat`.
 */
module Clock {
  import opened Wrappers
  import opened Text

  /** Korea Standard Time's offset from UTC, in minutes (src/services/time_service.py:7). */
  const KstOffsetMinutes: int := 540

  const MinutesPerDay: int := 1440

  predicate IsLeapYear(y: int)
  {
    y % 4 == 0 && (y % 100 != 0 || y % 400 == 0)
  }

  function DaysInMonth(y: int, m: int): (n: int)
    ensures 28 <= n <= 31
  {
    if m == 2 then (if IsLeapYear(y) then 29 else 28)
    else if m == 4 || m == 6 || m == 9 || m == 11 then 30
    else 31
  }

  predicate ValidDate(y: int, m: int, d: int)
  {
    1 <= m <= 12 && 1 <= d <= DaysInMonth(y, m)
  }

  /** A wall-clock reading without a zone: Python's naive `datetime`. */
  datatype DateTime = DateTime(year: int, month: int, day: int,
                               hour: int, minute: int, second: int, micro: int)
  {
    predicate Valid()
    {
      ValidDate(year, month, day)
      && 0 <= hour < 24 && 0 <= minute < 60 && 0 <= second < 60 && 0 <= micro < 1000000
    }

    /** Orders dates: months of 31 slots, years of 12 months. */
    function DateKey(): int
    {
      year * 372 + month * 31 + day
    }

    /** Microseconds since midnight. */
    function TimeKey(): int
    {
      hour * 3600000000 + minute * 60000000 + second * 1000000 + micro
    }

    function MinuteOfDay(): int
    {
      hour * 60 + minute
    }

    function Date(): (int, int, int)
    {
      (year, month, day)
    }
  }

  /** `a < b` on naive datetimes. */
  predicate Before(a: DateTime, b: DateTime)
  {
    a.DateKey() < b.DateKey() || (a.DateKey() == b.DateKey() && a.TimeKey() < b.TimeKey())
  }

  /** A moment as Python holds it: naive, or aware with a UTC offset in minutes. */
  datatype Moment = Naive(local: DateTime) | Aware(local: DateTime, offsetMinutes: int)

  // ----------------------------------------------------------------------------------
  // Day arithmetic
  // ----------------------------------------------------------------------------------

  function NextDate(y: int, m: int, d: int): (int, int, int)
  {
    if d < DaysInMonth(y, m) then (y, m, d + 1)
    else if m < 12 then (y, m + 1, 1)
    else (y + 1, 1, 1)
  }

  function PrevDate(y: int, m: int, d: int): (int, int, int)
  {
    if d > 1 then (y, m, d - 1)
    else if m > 1 then (y, m - 1, DaysInMonth(y, m - 1))
    else (y - 1, 12, 31)
  }

  function Tomorrow(dt: DateTime): DateTime
  {
    var (y, m, d) := NextDate(dt.year, dt.month, dt.day);
    dt.(year := y, month := m, day := d)
  }

  function Yesterday(dt: DateTime): DateTime
  {
    var (y, m, d) := PrevDate(dt.year, dt.month, dt.day);
    dt.(year := y, month := m, day := d)
  }

  lemma TomorrowYesterday(dt: DateTime)
    requires ValidDate(dt.year, dt.month, dt.day)
    ensures ValidDate(Tomorrow(dt).year, Tomorrow(dt).month, Tomorrow(dt).day)
    ensures ValidDate(Yesterday(dt).year, Yesterday(dt).month, Yesterday(dt).day)
    ensures Yesterday(Tomorrow(dt)) == dt && Tomorrow(Yesterday(dt)) == dt
    ensures Tomorrow(dt).DateKey() > dt.DateKey()
  {
  }

  /** `dt + timedelta(days=n)` */
  function ShiftDays(dt: DateTime, n: int): DateTime
    decreases if n < 0 then -n else n
  {
    if n == 0 then dt
    else if n > 0 then ShiftDays(Tomorrow(dt), n - 1)
    else ShiftDays(Yesterday(dt), n + 1)
  }

  lemma {:induction false} ShiftDaysKeepsTime(dt: DateTime, n: int)
    ensures var r := ShiftDays(dt, n);
      r.hour == dt.hour && r.minute == dt.minute && r.second == dt.second && r.micro == dt.micro
    ensures ValidDate(dt.year, dt.month, dt.day) ==> var r := ShiftDays(dt, n); ValidDate(r.year, r.month, r.day)
    ensures ValidDate(dt.year, dt.month, dt.day) && n > 0 ==> ShiftDays(dt, n).DateKey() > dt.DateKey()
    decreases if n < 0 then -n else n
  {
    if ValidDate(dt.year, dt.month, dt.day) {
      TomorrowYesterday(dt);
    }
    if n > 0 {
      ShiftDaysKeepsTime(Tomorrow(dt), n - 1);
    } else if n < 0 {
      ShiftDaysKeepsTime(Yesterday(dt), n + 1);
    }
  }

  /** Setting the time of day commutes with moving the date. */
  lemma {:induction false} ShiftDaysWithTime(dt: DateTime, n: int, h: int, mi: int)
    ensures ShiftDays(dt.(hour := h, minute := mi), n) == ShiftDays(dt, n).(hour := h, minute := mi)
    decreases if n < 0 then -n else n
  {
    if n > 0 {
      ShiftDaysWithTime(Tomorrow(dt), n - 1, h, mi);
    } else if n < 0 {
      ShiftDaysWithTime(Yesterday(dt), n + 1, h, mi);
    }
  }

  lemma {:induction false} ShiftDaysFromTomorrow(dt: DateTime, n: int)
    requires ValidDate(dt.year, dt.month, dt.day)
    ensures ShiftDays(Tomorrow(dt), n) == ShiftDays(dt, n + 1)
  {
    if n < 0 {
      TomorrowYesterday(dt);
    }
  }

  lemma {:induction false} ShiftDaysFromYesterday(dt: DateTime, n: int)
    requires ValidDate(dt.year, dt.month, dt.day)
    ensures ShiftDays(Yesterday(dt), n) == ShiftDays(dt, n - 1)
  {
    if n > 0 {
      TomorrowYesterday(dt);
    }
  }

  /** Moving by `a` days then by `b` days is moving by `a + b` days. */
  lemma {:induction false} ShiftDaysAdd(dt: DateTime, a: int, b: int)
    requires ValidDate(dt.year, dt.month, dt.day)
    ensures ShiftDays(ShiftDays(dt, a), b) == ShiftDays(dt, a + b)
    decreases if a < 0 then -a else a
  {
    TomorrowYesterday(dt);
    if a > 0 {
      ShiftDaysAdd(Tomorrow(dt), a - 1, b);
      ShiftDaysFromTomorrow(dt, a - 1 + b);
    } else if a < 0 {
      ShiftDaysAdd(Yesterday(dt), a + 1, b);
      ShiftDaysFromYesterday(dt, a + 1 + b);
    }
  }

  // ----------------------------------------------------------------------------------
  // Minute arithmetic
  // ----------------------------------------------------------------------------------

  /** `dt + timedelta(minutes=k)` */
  function AddMinutes(dt: DateTime, k: int): DateTime
  {
    var total := dt.MinuteOfDay() + k;
    var m := total % MinutesPerDay;
    ShiftDays(dt.(hour := m / 60, minute := m % 60), total / MinutesPerDay)
  }

  lemma AddMinutesValid(dt: DateTime, k: int)
    requires dt.Valid()
    ensures AddMinutes(dt, k).Valid()
    ensures AddMinutes(dt, k).second == dt.second && AddMinutes(dt, k).micro == dt.micro
  {
    var total := dt.MinuteOfDay() + k;
    var m := total % MinutesPerDay;
    ShiftDaysKeepsTime(dt.(hour := m / 60, minute := m % 60), total / MinutesPerDay);
  }

  lemma AddMinutesZero(dt: DateTime)
    requires dt.Valid()
    ensures AddMinutes(dt, 0) == dt
  {
  }

  /** Adding `a` minutes then `b` minutes is adding `a + b` minutes. */
  lemma AddMinutesAdd(dt: DateTime, a: int, b: int)
    requires dt.Valid()
    ensures AddMinutes(AddMinutes(dt, a), b) == AddMinutes(dt, a + b)
  {
    var t1 := dt.MinuteOfDay() + a;
    var m1 := t1 % MinutesPerDay;
    var q1 := t1 / MinutesPerDay;
    var first := AddMinutes(dt, a);
    ShiftDaysWithTime(dt, q1, m1 / 60, m1 % 60);
    assert first == ShiftDays(dt, q1).(hour := m1 / 60, minute := m1 % 60);
    assert first.MinuteOfDay() == m1;
    var t2 := m1 + b;
    var m2 := t2 % MinutesPerDay;
    var q2 := t2 / MinutesPerDay;
    assert m2 == (t1 + b) % MinutesPerDay;
    assert q1 + q2 == (t1 + b) / MinutesPerDay;
    var dt2 := dt.(hour := m2 / 60, minute := m2 % 60);
    calc {
      AddMinutes(first, b);
      ShiftDays(first.(hour := m2 / 60, minute := m2 % 60), q2);
      { assert first.(hour := m2 / 60, minute := m2 % 60) == ShiftDays(dt, q1).(hour := m2 / 60, minute := m2 % 60); }
      ShiftDays(ShiftDays(dt, q1).(hour := m2 / 60, minute := m2 % 60), q2);
      { ShiftDaysWithTime(dt, q1, m2 / 60, m2 % 60); }
      ShiftDays(ShiftDays(dt2, q1), q2);
      { ShiftDaysAdd(dt2, q1, q2); }
      ShiftDays(dt2, q1 + q2);
      AddMinutes(dt, a + b);
    }
  }

  lemma AddMinutesUndo(dt: DateTime, k: int)
    requires dt.Valid()
    ensures AddMinutes(AddMinutes(dt, k), -k) == dt
  {
    AddMinutesAdd(dt, k, -k);
  }

  /** One minute later is strictly later, and nothing in between has the same minute. */
  lemma AddOneMinuteLater(dt: DateTime)
    requires dt.Valid()
    ensures Before(dt, AddMinutes(dt, 1))
  {
    var total := dt.MinuteOfDay() + 1;
    var m := total % MinutesPerDay;
    if total < MinutesPerDay {
      assert AddMinutes(dt, 1) == dt.(hour := total / 60, minute := total % 60);
    } else {
      assert total / MinutesPerDay == 1;
      ShiftDaysKeepsTime(dt.(hour := m / 60, minute := m % 60), 1);
    }
  }

  // ----------------------------------------------------------------------------------
  // time_service
  // ----------------------------------------------------------------------------------

  /** `TimeService.to_kst_naive`: a naive value is taken as already KST; an aware one is moved to UTC+9. */
  function ToKstNaive(m: Moment): (r: DateTime)
    ensures m.Naive? ==> r == m.local
    ensures m.Aware? ==> r == AddMinutes(m.local, KstOffsetMinutes - m.offsetMinutes)
  {
    match m
    case Naive(dt) => dt
    case Aware(dt, off) => AddMinutes(dt, KstOffsetMinutes - off)
  }

  /** The UTC reading of an aware moment. */
  function UtcOf(dt: DateTime, offsetMinutes: int): DateTime
  {
    AddMinutes(dt, -offsetMinutes)
  }

  /** Two aware readings of the same instant give the same naive KST value. */
  lemma ToKstNaiveSameInstant(a: DateTime, offA: int, b: DateTime, offB: int)
    requires a.Valid() && b.Valid()
    requires UtcOf(a, offA) == UtcOf(b, offB)
    ensures ToKstNaive(Aware(a, offA)) == ToKstNaive(Aware(b, offB))
  {
    AddMinutesAdd(a, -offA, KstOffsetMinutes);
    AddMinutesAdd(b, -offB, KstOffsetMinutes);
  }

  /** A moment already stamped +09:00 keeps its wall-clock reading. */
  lemma ToKstNaiveOfKst(dt: DateTime)
    requires dt.Valid()
    ensures ToKstNaive(Aware(dt, KstOffsetMinutes)) == dt
  {
  }

  /**
   * `TimeService.floor_minute_kst(dt)`: the wall-clock reading with seconds and microseconds
   * cleared. A naive value is tagged KST; an aware value keeps its own zone's wall clock
   * (it is not converted), and the zone is then dropped.
   */
  function FloorMinuteKst(m: Moment): (r: DateTime)
    ensures r.second == 0 && r.micro == 0
    ensures r.year == m.local.year && r.month == m.local.month && r.day == m.local.day
    ensures r.hour == m.local.hour && r.minute == m.local.minute
  {
    m.local.(second := 0, micro := 0)
  }

  /** The floored value is the start of the minute that contains the input. */
  lemma FloorMinuteBrackets(m: Moment)
    requires m.local.Valid()
    ensures var r := FloorMinuteKst(m); r.Valid() && !Before(m.local, r) && Before(m.local, AddMinutes(r, 1))
    ensures FloorMinuteKst(Naive(FloorMinuteKst(m))) == FloorMinuteKst(m)
  {
    var r := FloorMinuteKst(m);
    AddOneMinuteLater(r);
    var total := r.MinuteOfDay() + 1;
    if total < MinutesPerDay {
      assert AddMinutes(r, 1) == r.(hour := total / 60, minute := total % 60);
    } else {
      assert total / MinutesPerDay == 1;
      ShiftDaysKeepsTime(r.(hour := 0, minute := 0), 1);
    }
  }

  /** An aware value's zone is ignored by the floor: the result does not depend on the offset. */
  lemma FloorMinuteIgnoresOffset(dt: DateTime, off1: int, off2: int)
    ensures FloorMinuteKst(Aware(dt, off1)) == FloorMinuteKst(Aware(dt, off2)) == FloorMinuteKst(Naive(dt))
  {
  }

  // ----------------------------------------------------------------------------------
  // Weekday
  // ----------------------------------------------------------------------------------

  /** The year term of Sakamoto's method: the days a year shifts the week, leap days included. */
  function YearTerm(y: int): int
  {
    y + y / 4 - y / 100 + y / 400
  }

  /** The month offsets of Sakamoto's method, January first. */
  const MonthTerm: seq<int> := [0, 3, 2, 5, 0, 3, 5, 1, 4, 6, 2, 4]

  /** Sakamoto's day count, whose remainder by 7 numbers the days of the week from Sunday. */
  function WeekSum(dt: DateTime): int
    requires 1 <= dt.month <= 12
  {
    var y := if dt.month < 3 then dt.year - 1 else dt.year;
    YearTerm(y) + MonthTerm[dt.month - 1] + dt.day
  }

  /** `date.weekday()`: Monday is 0 and Sunday is 6 (Sakamoto's method, shifted). */
  function Weekday(dt: DateTime): (w: int)
    requires 1 <= dt.month <= 12
    ensures 0 <= w < 7
  {
    (WeekSum(dt) % 7 + 6) % 7
  }

  /** A year adds one day of the week to its successor, two when it holds a leap day. */
  lemma YearTermStep(y: int)
    ensures YearTerm(y) - YearTerm(y - 1) == if IsLeapYear(y) then 2 else 1
  {
    DivStep4(y);
    DivStep100(y);
    DivStep400(y);
    var q4, q100, q400 := y / 4 - (y - 1) / 4, y / 100 - (y - 1) / 100, y / 400 - (y - 1) / 400;
    assert YearTerm(y) - YearTerm(y - 1) == 1 + q4 - q100 + q400;
    MultiplesNest(y);
  }

  /** A multiple of 400 is a multiple of 100, and a multiple of 100 one of 4. */
  lemma MultiplesNest(y: int)
    ensures y % 400 == 0 ==> y % 100 == 0
    ensures y % 100 == 0 ==> y % 4 == 0
  {
    if y % 400 == 0 {
      var k := y / 400;
      assert y == 100 * (4 * k);
    }
    if y % 100 == 0 {
      var k := y / 100;
      assert y == 4 * (25 * k);
    }
  }

  /** The quotient by 4 goes up by one exactly at a multiple of 4. */
  lemma DivStep4(y: int)
    ensures y / 4 - (y - 1) / 4 == if y % 4 == 0 then 1 else 0
  {
  }

  /** The quotient by 100 goes up by one exactly at a multiple of 100. */
  lemma DivStep100(y: int)
    ensures y / 100 - (y - 1) / 100 == if y % 100 == 0 then 1 else 0
  {
  }

  /** The quotient by 400 goes up by one exactly at a multiple of 400. */
  lemma DivStep400(y: int)
    ensures y / 400 - (y - 1) / 400 == if y % 400 == 0 then 1 else 0
  {
  }

  /** Two sums that differ by one plus a whole number of weeks name consecutive weekdays. */
  lemma WeekdayOfSums(dt: DateTime, t: DateTime, k: int)
    requires 1 <= dt.month <= 12 && 1 <= t.month <= 12
    requires WeekSum(t) == WeekSum(dt) + 1 + 7 * k
    ensures Weekday(t) == (Weekday(dt) + 1) % 7
  {
    var a, b := WeekSum(dt), WeekSum(t);
    assert (b % 7 + 6) % 7 == ((a % 7 + 6) % 7 + 1) % 7;
  }

  /** Across the end of a month the day of the week moves on by one. */
  lemma WeekdayMonthEnd(dt: DateTime, t: DateTime)
    requires ValidDate(dt.year, dt.month, dt.day) && dt.day == DaysInMonth(dt.year, dt.month)
    requires t == Tomorrow(dt)
    ensures 1 <= t.month <= 12
    ensures Weekday(t) == (Weekday(dt) + 1) % 7
  {
    var m := dt.month;
    if m == 12 {
      assert t.year == dt.year + 1 && t.month == 1 && t.day == 1;
      assert WeekSum(t) == WeekSum(dt) + 1 + 7 * -5;
      WeekdayOfSums(dt, t, -5);
    } else if m == 2 {
      assert t.year == dt.year && t.month == 3 && t.day == 1;
      YearTermStep(dt.year);
      WeekdayOfSums(dt, t, -4);
    } else {
      assert t.year == dt.year && t.month == m + 1 && t.day == 1;
      var k := (MonthTerm[m] - MonthTerm[m - 1] - DaysInMonth(dt.year, m)) / 7;
      assert MonthTerm[m] - MonthTerm[m - 1] - DaysInMonth(dt.year, m) == 7 * k;
      WeekdayOfSums(dt, t, k);
    }
  }

  /** The day after a valid date falls on the next day of the week, Sunday wrapping to Monday. */
  lemma WeekdayTomorrow(dt: DateTime)
    requires ValidDate(dt.year, dt.month, dt.day)
    ensures ValidDate(Tomorrow(dt).year, Tomorrow(dt).month, Tomorrow(dt).day)
    ensures Weekday(Tomorrow(dt)) == (Weekday(dt) + 1) % 7
  {
    TomorrowYesterday(dt);
    if dt.day < DaysInMonth(dt.year, dt.month) {
      WeekdayOfSums(dt, Tomorrow(dt), 0);
    } else {
      WeekdayMonthEnd(dt, Tomorrow(dt));
    }
  }

  /** A first step of one day of the week, then `n - 1` more, is a step of `n`. */
  lemma WeekdayAdd(w: int, w1: int, n: int, r: int)
    requires w1 == (w + 1) % 7 && r == (w1 + (n - 1)) % 7
    ensures r == (w + n) % 7
  {
  }

  /** A step of `m` from the day before is a step of `m - 1` from the day after it. */
  lemma WeekdayBack(w: int, w1: int, m: int, r: int)
    requires w1 == (w + 1) % 7 && r == (w + m) % 7
    ensures r == (w1 + (m - 1)) % 7
  {
  }

  /** `(dt + timedelta(days=n)).weekday()` for `n >= 0`: `n` days of the week later. */
  lemma {:induction false} WeekdayForward(dt: DateTime, n: nat)
    requires ValidDate(dt.year, dt.month, dt.day)
    ensures var r := ShiftDays(dt, n);
      ValidDate(r.year, r.month, r.day) && Weekday(r) == (Weekday(dt) + n) % 7
    decreases n
  {
    if n > 0 {
      var t := Tomorrow(dt);
      WeekdayTomorrow(dt);
      WeekdayForward(t, n - 1);
      var r := ShiftDays(t, n - 1);
      assert ShiftDays(dt, n) == r;
      WeekdayAdd(Weekday(dt), Weekday(t), n, Weekday(r));
    }
  }

  /** `(dt - timedelta(days=n)).weekday()` for `n >= 0`: `n` days of the week earlier. */
  lemma {:induction false} WeekdayBackward(dt: DateTime, n: nat)
    requires ValidDate(dt.year, dt.month, dt.day)
    ensures var r := ShiftDays(dt, -(n as int));
      ValidDate(r.year, r.month, r.day) && Weekday(r) == (Weekday(dt) - n) % 7
    decreases n
  {
    if n > 0 {
      var p := Yesterday(dt);
      TomorrowYesterday(dt);
      WeekdayTomorrow(p);
      WeekdayBackward(p, n - 1);
      var m: int := -(n - 1);
      var r := ShiftDays(p, m);
      assert ShiftDays(dt, -(n as int)) == r;
      WeekdayBack(Weekday(p), Weekday(dt), m, Weekday(r));
    }
  }

  /** `(dt + timedelta(days=n)).weekday()` moves on by `n` days of the week, in either direction. */
  lemma WeekdayShift(dt: DateTime, n: int)
    requires ValidDate(dt.year, dt.month, dt.day)
    ensures var r := ShiftDays(dt, n);
      ValidDate(r.year, r.month, r.day) && Weekday(r) == (Weekday(dt) + n) % 7
  {
    if n >= 0 {
      WeekdayForward(dt, n);
    } else {
      WeekdayBackward(dt, -n);
    }
  }

  /** Two anchors of the proleptic calendar: 2024-01-01 was a Monday, 2024-06-15 a Saturday. */
  lemma WeekdayAnchors()
    ensures Weekday(DateTime(2024, 1, 1, 0, 0, 0, 0)) == 0
    ensures Weekday(DateTime(2024, 6, 15, 0, 0, 0, 0)) == 5
  {
  }

  // ----------------------------------------------------------------------------------
  // isoformat / fromisoformat
  // ----------------------------------------------------------------------------------

  function NonNeg(i: int): nat
  {
    if i < 0 then 0 else i
  }

  /** `YYYY-MM-DD` */
  function DateText(dt: DateTime): (s: string)
    ensures |s| == 10
  {
    Pad(NonNeg(dt.year), 4) + "-" + Pad(NonNeg(dt.month), 2) + "-" + Pad(NonNeg(dt.day), 2)
  }

  /** `HH:MM:SS` */
  function TimeText(dt: DateTime): (s: string)
    ensures |s| == 8
  {
    Pad(NonNeg(dt.hour), 2) + ":" + Pad(NonNeg(dt.minute), 2) + ":" + Pad(NonNeg(dt.second), 2)
  }

  /** `datetime.isoformat()` of a naive value: `YYYY-MM-DDTHH:MM:SS`, then `.ffffff` when micro is not 0. */
  function IsoFormat(dt: DateTime): (s: string)
    ensures |s| == (if dt.micro == 0 then 19 else 26)
  {
    DateText(dt) + "T" + TimeText(dt) + (if dt.micro == 0 then "" else "." + Pad(NonNeg(dt.micro), 6))
  }

  /** `isoformat` of an aware value: the naive text followed by `+HH:MM` or `-HH:MM`. */
  function IsoFormatMoment(m: Moment): string
  {
    match m
    case Naive(dt) => IsoFormat(dt)
    case Aware(dt, off) =>
      var a := if off < 0 then -off else off;
      IsoFormat(dt) + (if off < 0 then "-" else "+") + Pad(a / 60, 2) + ":" + Pad(a % 60, 2)
  }

  predicate DigitsAt(s: string, lo: int, hi: int)
  {
    0 <= lo <= hi <= |s| && AllDigits(s[lo..hi])
  }

  function NumAt(s: string, lo: int, hi: int): nat
    requires DigitsAt(s, lo, hi)
  {
    DigitsValue(s[lo..hi])
  }

  /** The shape `YYYY-MM-DDTHH:MM:SS` at the start of `s`. */
  predicate IsoShape(s: string)
  {
    |s| >= 19
    && DigitsAt(s, 0, 4) && s[4] == '-' && DigitsAt(s, 5, 7) && s[7] == '-' && DigitsAt(s, 8, 10)
    && (s[10] == 'T' || s[10] == ' ')
    && DigitsAt(s, 11, 13) && s[13] == ':' && DigitsAt(s, 14, 16) && s[16] == ':' && DigitsAt(s, 17, 19)
  }

  /** The zone suffix `+HH:MM` / `-HH:MM`, as signed minutes. */
  function ParseOffset(z: string): Option<int>
  {
    if |z| == 6 && (z[0] == '+' || z[0] == '-') && DigitsAt(z, 1, 3) && z[3] == ':' && DigitsAt(z, 4, 6)
       && NumAt(z, 1, 3) < 24 && NumAt(z, 4, 6) < 60
    then
      var minutes: int := NumAt(z, 1, 3) * 60 + NumAt(z, 4, 6);
      Some(if z[0] == '-' then -minutes else minutes)
    else None
  }

  /**
   * `datetime.fromisoformat(s)` on the forms this system writes: a date, `T` or a space,
   * a time to the second, an optional six-digit fraction and an optional `±HH:MM` zone.
   */
  function FromIsoFormat(s: string): (r: Option<Moment>)
    ensures r.Some? ==> r.value.local.Valid()
  {
    if !IsoShape(s) then None
    else
      var hasFraction := |s| >= 20 && s[19] == '.';
      if hasFraction && !DigitsAt(s, 20, 26) then None
      else
        var micro := if hasFraction then NumAt(s, 20, 26) else 0;
        var zone := if hasFraction then s[26..] else s[19..];
        var dt := DateTime(NumAt(s, 0, 4), NumAt(s, 5, 7), NumAt(s, 8, 10),
                           NumAt(s, 11, 13), NumAt(s, 14, 16), NumAt(s, 17, 19), micro);
        if !dt.Valid() then None
        else if |zone| == 0 then Some(Naive(dt))
        else match ParseOffset(zone)
          case None => None
          case Some(off) => Some(Aware(dt, off))
  }

  predicate IsoRange(dt: DateTime)
  {
    dt.Valid() && 1 <= dt.year <= 9999
  }

  /** Three fixed-width fields joined by one-character separators. */
  lemma ThreeFields(a: string, sep1: char, b: string, sep2: char, c: string)
    ensures var s := a + [sep1] + b + [sep2] + c;
      s[0..|a|] == a && s[|a|] == sep1 && s[|a| + 1..|a| + 1 + |b|] == b
      && s[|a| + 1 + |b|] == sep2 && s[|a| + 2 + |b|..] == c
  {
  }

  /** A two-digit field reads back as the number written into it. */
  lemma PadTwo(n: int)
    requires 0 <= n < 100
    ensures AllDigits(Pad(n, 2)) && DigitsValue(Pad(n, 2)) == n
  {
    assert Pow10(2) == 100;
    PadValue(n, 2);
  }

  lemma DateTextFields(dt: DateTime)
    requires IsoRange(dt)
    ensures var s := DateText(dt);
      DigitsAt(s, 0, 4) && s[4] == '-' && DigitsAt(s, 5, 7) && s[7] == '-' && DigitsAt(s, 8, 10)
      && NumAt(s, 0, 4) == dt.year && NumAt(s, 5, 7) == dt.month && NumAt(s, 8, 10) == dt.day
  {
    var s := DateText(dt);
    var y, m, d := Pad(dt.year, 4), Pad(dt.month, 2), Pad(dt.day, 2);
    assert s == y + ['-'] + m + ['-'] + d;
    ThreeFields(y, '-', m, '-', d);
    assert Pow10(4) == 10000;
    PadValue(dt.year, 4);
    PadTwo(dt.month);
    PadTwo(dt.day);
    assert s[0..4] == y && s[5..7] == m && s[8..10] == d;
  }

  lemma TimeTextFields(dt: DateTime)
    requires IsoRange(dt)
    ensures var s := TimeText(dt);
      DigitsAt(s, 0, 2) && s[2] == ':' && DigitsAt(s, 3, 5) && s[5] == ':' && DigitsAt(s, 6, 8)
      && NumAt(s, 0, 2) == dt.hour && NumAt(s, 3, 5) == dt.minute && NumAt(s, 6, 8) == dt.second
  {
    var s := TimeText(dt);
    var h, m, se := Pad(dt.hour, 2), Pad(dt.minute, 2), Pad(dt.second, 2);
    assert s == h + [':'] + m + [':'] + se;
    ThreeFields(h, ':', m, ':', se);
    PadTwo(dt.hour);
    PadTwo(dt.minute);
    PadTwo(dt.second);
    assert s[0..2] == h && s[3..5] == m && s[6..8] == se;
  }

  /** The digit fields of `isoformat` sit at their fixed positions and read back as the fields. */
  lemma IsoFields(dt: DateTime)
    requires IsoRange(dt)
    ensures var s := IsoFormat(dt);
      IsoShape(s)
      && NumAt(s, 0, 4) == dt.year && NumAt(s, 5, 7) == dt.month && NumAt(s, 8, 10) == dt.day
      && NumAt(s, 11, 13) == dt.hour && NumAt(s, 14, 16) == dt.minute && NumAt(s, 17, 19) == dt.second
  {
    var s := IsoFormat(dt);
    var d, t := DateText(dt), TimeText(dt);
    var rest := if dt.micro == 0 then "" else "." + Pad(NonNeg(dt.micro), 6);
    assert s == d + ['T'] + t + rest;
    DateTextFields(dt);
    TimeTextFields(dt);
    IsoLayout(d, 'T', t, rest);
  }

  /** Where the date's and the time's fields land once joined by one character. */
  lemma IsoLayout(d: string, sep: char, t: string, rest: string)
    requires |d| == 10 && |t| == 8
    ensures var s := d + [sep] + t + rest;
      s[0..4] == d[0..4] && s[4] == d[4] && s[5..7] == d[5..7] && s[7] == d[7] && s[8..10] == d[8..10]
      && s[10] == sep && s[11..13] == t[0..2] && s[13] == t[2] && s[14..16] == t[3..5] && s[16] == t[5]
      && s[17..19] == t[6..8]
  {
    var s := d + [sep] + t + rest;
    assert s[..10] == d;
    assert s[11..19] == t;
  }

  /** The text after the seconds: empty, or `.` and the six fraction digits. */
  lemma IsoFraction(dt: DateTime)
    requires IsoRange(dt)
    ensures var s := IsoFormat(dt);
      (dt.micro == 0 ==> s[19..] == [])
      && (dt.micro != 0 ==> s[19] == '.' && DigitsAt(s, 20, 26) && NumAt(s, 20, 26) == dt.micro && s[26..] == [])
  {
    var s := IsoFormat(dt);
    if dt.micro != 0 {
      assert s[19..] == "." + Pad(dt.micro, 6);
      assert s[20..26] == Pad(dt.micro, 6);
      assert Pow10(6) == 1000000;
      PadValue(dt.micro, 6);
    }
  }

  /** `datetime.fromisoformat(dt.isoformat()) == dt` for every datetime Python can hold. */
  lemma FromIsoFormatOfIsoFormat(dt: DateTime)
    requires IsoRange(dt)
    ensures FromIsoFormat(IsoFormat(dt)) == Some(Naive(dt))
  {
    IsoFields(dt);
    IsoFraction(dt);
  }

  // ----------------------------------------------------------------------------------
  // strftime / strptime on fixed-width digit fields
  // ----------------------------------------------------------------------------------

  /** `strftime("%Y%m%d")` */
  function YmdText(dt: DateTime): (s: string)
    ensures |s| == 8
  {
    Pad(NonNeg(dt.year), 4) + Pad(NonNeg(dt.month), 2) + Pad(NonNeg(dt.day), 2)
  }

  /** `strftime("%H%M")` */
  function HmText(dt: DateTime): (s: string)
    ensures |s| == 4
  {
    Pad(NonNeg(dt.hour), 2) + Pad(NonNeg(dt.minute), 2)
  }

  /** `strftime("%H%M%S")` */
  function HmsText(dt: DateTime): (s: string)
    ensures |s| == 6
  {
    HmText(dt) + Pad(NonNeg(dt.second), 2)
  }

  /** `strftime("%Y-%m-%d %H:%M:%S")` */
  function StampText(dt: DateTime): (s: string)
    ensures |s| == 19
  {
    DateText(dt) + " " + TimeText(dt)
  }

  /**
   * `datetime.strptime(s, "%Y%m%d%H%M%S")` on the fixed-width text the vendor sends:
   * fourteen digits naming a real date and time, else ValueError (None here).
   */
  function ParseCompact(s: string): (r: Option<DateTime>)
    ensures r.Some? ==> r.value.Valid() && r.value.micro == 0
  {
    if |s| == 14 && AllDigits(s) then
      var dt := DateTime(DigitsValue(s[0..4]), DigitsValue(s[4..6]), DigitsValue(s[6..8]),
                         DigitsValue(s[8..10]), DigitsValue(s[10..12]), DigitsValue(s[12..14]), 0);
      if dt.Valid() then Some(dt) else None
    else None
  }

  /** Six digit fields of widths 4, 2, 2, 2, 2, 2 laid end to end. */
  lemma SixFields(y: string, mo: string, d: string, h: string, mi: string, se: string)
    requires |y| == 4 && |mo| == 2 && |d| == 2 && |h| == 2 && |mi| == 2 && |se| == 2
    requires AllDigits(y) && AllDigits(mo) && AllDigits(d) && AllDigits(h) && AllDigits(mi) && AllDigits(se)
    ensures var s := y + mo + d + h + mi + se;
      |s| == 14 && AllDigits(s) && s[0..4] == y && s[4..6] == mo && s[6..8] == d
      && s[8..10] == h && s[10..12] == mi && s[12..14] == se
  {
    var s := y + mo + d + h + mi + se;
    assert s[0..4] == y && s[4..6] == mo && s[6..8] == d;
    assert s[8..10] == h && s[10..12] == mi && s[12..14] == se;
    assert forall i | 0 <= i < 14 :: IsDigit(s[i]) by {
      forall i | 0 <= i < 14
        ensures IsDigit(s[i])
      {
        if i < 4 { assert s[i] == y[i]; }
        else if i < 6 { assert s[i] == mo[i - 4]; }
        else if i < 8 { assert s[i] == d[i - 6]; }
        else if i < 10 { assert s[i] == h[i - 8]; }
        else if i < 12 { assert s[i] == mi[i - 10]; }
        else { assert s[i] == se[i - 12]; }
      }
    }
  }

  /** `%Y-%m-%d %H:%M:%S` carries the reading's fields at the places `isoformat` does, with a space between. */
  lemma StampTextFields(dt: DateTime)
    requires IsoRange(dt)
    ensures var s := StampText(dt);
      IsoShape(s) && s[10] == ' '
      && NumAt(s, 0, 4) == dt.year && NumAt(s, 5, 7) == dt.month && NumAt(s, 8, 10) == dt.day
      && NumAt(s, 11, 13) == dt.hour && NumAt(s, 14, 16) == dt.minute && NumAt(s, 17, 19) == dt.second
  {
    var s := StampText(dt);
    var d, t := DateText(dt), TimeText(dt);
    assert s == d + [' '] + t + "";
    DateTextFields(dt);
    TimeTextFields(dt);
    IsoLayout(d, ' ', t, "");
  }

  /** Reading back the compact date and time text of a whole-second datetime gives that datetime. */
  lemma ParseCompactOfText(dt: DateTime)
    requires IsoRange(dt) && dt.micro == 0
    ensures ParseCompact(YmdText(dt) + HmsText(dt)) == Some(dt)
  {
    var s := YmdText(dt) + HmsText(dt);
    assert |s| == 14 && AllDigits(s)
      && DigitsValue(s[0..4]) == dt.year && DigitsValue(s[4..6]) == dt.month && DigitsValue(s[6..8]) == dt.day
      && DigitsValue(s[8..10]) == dt.hour && DigitsValue(s[10..12]) == dt.minute && DigitsValue(s[12..14]) == dt.second
    by {
      var y, mo, d := Pad(dt.year, 4), Pad(dt.month, 2), Pad(dt.day, 2);
      var h, mi, se := Pad(dt.hour, 2), Pad(dt.minute, 2), Pad(dt.second, 2);
      assert s == y + mo + d + h + mi + se;
      assert AllDigits(y) && DigitsValue(y) == dt.year by {
        assert Pow10(4) == 10000;
        PadValue(dt.year, 4);
      }
      PadTwo(dt.month);
      PadTwo(dt.day);
      PadTwo(dt.hour);
      PadTwo(dt.minute);
      PadTwo(dt.second);
      SixFields(y, mo, d, h, mi, se);
    }
  }

  /** `TimeService.now_kst_naive()`: the KST wall-clock reading of the instant `utcNow` (given in UTC). */
  function NowKstNaive(utcNow: DateTime): (r: DateTime)
    ensures r == ToKstNaive(Aware(utcNow, 0))
  {
    AddMinutes(utcNow, KstOffsetMinutes)
  }

  /** Any aware reading of the same instant gives the same KST wall clock as `now_kst_naive`. */
  lemma NowKstNaiveAgrees(utcNow: DateTime, local: DateTime, off: int)
    requires utcNow.Valid() && local.Valid()
    requires UtcOf(local, off) == utcNow
    ensures ToKstNaive(Aware(local, off)) == NowKstNaive(utcNow)
  {
    AddMinutesZero(utcNow);
    ToKstNaiveSameInstant(local, off, utcNow, 0);
  }

  /** The `%H%M` text names exactly one clock minute. */
  lemma HmTextIs(dt: DateTime, text: string, h: int, m: int)
    requires dt.Valid() && 0 <= h < 24 && 0 <= m < 60 && text == Pad(h, 2) + Pad(m, 2)
    ensures HmText(dt) == text <==> dt.hour == h && dt.minute == m
  {
    PadTwo(h);
    PadTwo(m);
    PadTwo(dt.hour);
    PadTwo(dt.minute);
    if HmText(dt) == text {
      assert HmText(dt)[..2] == Pad(dt.hour, 2) && text[..2] == Pad(h, 2);
      assert HmText(dt)[2..] == Pad(dt.minute, 2) && text[2..] == Pad(m, 2);
    }
  }

  /** `strftime("%H:%M")` */
  function ClockText(dt: DateTime): (s: string)
    ensures |s| == 5 && s[2] == ':'
  {
    Pad(NonNeg(dt.hour), 2) + ":" + Pad(NonNeg(dt.minute), 2)
  }

  /** Two zero-filled digits: the tens, then the units. */
  lemma PadDigits(n: nat)
    requires n < 100
    ensures Pad(n, 2) == [DigitChar(n / 10), DigitChar(n % 10)]
  {
    var t := n / 10;
    assert t < 10 && t % 10 == t && t / 10 == 0;
    assert Pad(n, 2) == Pad(t, 1) + [DigitChar(n % 10)];
    assert Pad(t, 1) == Pad(0, 0) + [DigitChar(t)];
  }

  /** Digit by digit, two-digit numbers compare as numbers. */
  lemma TwoDigitOrder(x: nat, y: nat)
    requires x < 100 && y < 100
    ensures (DigitChar(x / 10) < DigitChar(y / 10)
             || (DigitChar(x / 10) == DigitChar(y / 10) && DigitChar(x % 10) < DigitChar(y % 10))) <==> x < y
    ensures DigitChar(x / 10) == DigitChar(y / 10) && DigitChar(x % 10) == DigitChar(y % 10) <==> x == y
  {
    var x1, x0, y1, y0 := x / 10, x % 10, y / 10, y % 10;
    assert x == 10 * x1 + x0 && y == 10 * y1 + y0;
    assert DigitValue(DigitChar(x1)) == x1 && DigitValue(DigitChar(y1)) == y1;
    assert DigitValue(DigitChar(x0)) == x0 && DigitValue(DigitChar(y0)) == y0;
  }

  /** Python's order on strings of five characters: the first position where they differ decides. */
  lemma LessFive(a: string, b: string)
    requires |a| == 5 && |b| == 5
    ensures Less(a, b) <==>
      a[0] < b[0] || (a[0] == b[0] && (a[1] < b[1] || (a[1] == b[1] && (a[2] < b[2] || (a[2] == b[2]
      && (a[3] < b[3] || (a[3] == b[3] && a[4] < b[4])))))))
  {
    var a1, b1 := a[1..], b[1..];
    var a2, b2 := a1[1..], b1[1..];
    var a3, b3 := a2[1..], b2[1..];
    var a4, b4 := a3[1..], b3[1..];
    assert Less(a4, b4) <==> a[4] < b[4] || (a[4] == b[4] && Less(a4[1..], b4[1..]));
    assert a4[1..] == [] == b4[1..];
    assert Less(a3, b3) <==> a[3] < b[3] || (a[3] == b[3] && Less(a4, b4));
    assert Less(a2, b2) <==> a[2] < b[2] || (a[2] == b[2] && Less(a3, b3));
    assert Less(a1, b1) <==> a[1] < b[1] || (a[1] == b[1] && Less(a2, b2));
  }

  /**
   * Comparing `%H:%M` texts as strings is comparing minutes of the day: a reading is before the
   * zero-filled text of `h:m` exactly when its minute of the day is smaller.
   */
  lemma ClockTextBefore(dt: DateTime, text: string, h: nat, m: nat)
    requires dt.Valid() && h < 24 && m < 60 && text == Pad(h, 2) + ":" + Pad(m, 2)
    ensures Less(ClockText(dt), text) <==> dt.MinuteOfDay() < h * 60 + m
  {
    var hh, mm: nat := dt.hour, dt.minute;
    PadDigits(hh);
    PadDigits(mm);
    PadDigits(h);
    PadDigits(m);
    var a := ClockText(dt);
    assert a == [DigitChar(hh / 10), DigitChar(hh % 10), ':', DigitChar(mm / 10), DigitChar(mm % 10)];
    assert text == [DigitChar(h / 10), DigitChar(h % 10), ':', DigitChar(m / 10), DigitChar(m % 10)];
    LessFive(a, text);
    TwoDigitOrder(hh, h);
    TwoDigitOrder(mm, m);
    assert Less(a, text) <==> hh < h || (hh == h && mm < m);
  }
}
