/**
 The time stamp of the log: seconds since the Unix epoch to a Gregorian date and a time of day,
 against the calendar's own rules (RFC 3339, section 5.6 and appendix C).
 */
module CivilDate {
  import opened Wrappers
  import opened Bytes

  datatype Date = Date(year: nat, month: nat, day: nat)

  // -------------------------------------------------------------- the calendar

  predicate IsLeap(y: nat) {
    y % 4 == 0 && (y % 100 != 0 || y % 400 == 0)
  }

  function DaysInMonth(y: nat, m: nat): nat {
    if m == 2 then (if IsLeap(y) then 29 else 28)
    else if m == 4 || m == 6 || m == 9 || m == 11 then 30
    else 31
  }

  predicate IsDate(t: Date) {
    1 <= t.month <= 12 && 1 <= t.day <= DaysInMonth(t.year, t.month)
  }

  /** Days in the years from 1970 to `y`, `y` not included. */
  function DaysBeforeYear(y: nat): nat {
    if y <= 1970 then 0 else DaysBeforeYear(y - 1) + (if IsLeap(y - 1) then 366 else 365)
  }

  /** Days in the months of year `y` before month `m`. */
  function DaysBeforeMonth(y: nat, m: nat): nat {
    if m <= 1 then 0 else DaysBeforeMonth(y, m - 1) + DaysInMonth(y, m - 1)
  }

  /** The number of days from 1970-01-01 to a date, counted by the calendar. */
  function DayNumber(t: Date): nat
    requires IsDate(t)
  {
    DaysBeforeYear(t.year) + DaysBeforeMonth(t.year, t.month) + t.day - 1
  }

  function NextDay(t: Date): Date {
    if t.day < DaysInMonth(t.year, t.month) then Date(t.year, t.month, t.day + 1)
    else if t.month < 12 then Date(t.year, t.month + 1, 1)
    else Date(t.year + 1, 1, 1)
  }

  // ------------------------------------------------------------- the algorithm

  /** Days from 0000-03-01 to 1970-01-01. */
  const SHIFT: nat := 719468

  /** The day on which year `y` of an era begins, years beginning in March. */
  function YearStart(y: nat): nat {
    365 * y + y / 4 - y / 100
  }

  /** The day on which month `mp` of a March-based year begins. */
  function MonthStart(mp: nat): nat {
    (153 * mp + 2) / 5
  }

  /** The year of its era a day lies in. */
  function YearInEra(doe: u64): u64
    requires doe < 146097
  {
    YearOfEra(doe);
    (doe - doe / 1460 + doe / 36524 - doe / 146096) / 365
  }

  function MonthInYear(doy: u64): u64
    requires doy <= 365
  {
    (5 * doy + 2) / 153
  }

  /** Every intermediate value is a 64-bit unsigned integer: nothing underflows or wraps. */
  function EpochDaysToYmd(days: u64): (t: Date)
    requires days + SHIFT < U64_LIMIT
  {
    var z: u64 := days + SHIFT;
    var era: u64 := z / 146097;
    var doe: u64 := z - era * 146097;
    YearFound(doe);
    var yoe: u64 := YearInEra(doe);
    var y: u64 := yoe + era * 400;
    var doy: u64 := doe - YearStart(yoe);
    var mp: u64 := MonthInYear(doy);
    MonthOfYear(doy);
    var d: u64 := doy - MonthStart(mp) + 1;
    var m: u64 := if mp < 10 then mp + 3 else mp - 9;
    var year: u64 := if m <= 2 then y + 1 else y;
    Date(year, m, d)
  }

  /** A day of the 400-year era as centuries, 4-year cycles, years and days. */
  lemma SplitEra(doe: nat) returns (c: nat, k: nat, j: nat, doy: nat)
    requires doe < 146097
    ensures doe == 36524 * c + 1461 * k + 365 * j + doy
    ensures c <= 3 && k <= 24 && j <= 3 && doy <= (if j == 3 && (k < 24 || c == 3) then 365 else 364)
  {
    c := if doe / 36524 < 4 then doe / 36524 else 3;
    var r := doe - 36524 * c;
    k := r / 1461;
    var s := r - 1461 * k;
    j := if s / 365 < 4 then s / 365 else 3;
    doy := s - 365 * j;
  }

  /** The formula finds those years, whatever they are. */
  lemma YearFormula(doe: nat, c: nat, k: nat, j: nat, doy: nat)
    requires doe == 36524 * c + 1461 * k + 365 * j + doy
    requires c <= 3 && k <= 24 && j <= 3 && doy <= (if j == 3 && (k < 24 || c == 3) then 365 else 364)
    ensures doe / 1460 <= doe && doe / 146096 <= doe - doe / 1460 + doe / 36524
    ensures (doe - doe / 1460 + doe / 36524 - doe / 146096) / 365 == 100 * c + 4 * k + j
  {
    var extra := if 24 * c + k + 365 * j + doy >= 1460 then 1 else 0;
    assert doe == 1460 * (25 * c + k) + (24 * c + k + 365 * j + doy);
    assert doe / 1460 == 25 * c + k + extra;
    assert doe / 36524 - doe / 146096 == c;
    assert doe - doe / 1460 + doe / 36524 - doe / 146096 == 365 * (100 * c + 4 * k + j) + (doy - extra);
  }

  /** A day of the era lies in the year computed for it: no later than its last day, 366th or 365th. */
  lemma YearOfEra(doe: nat)
    requires doe < 146097
    ensures var yoe := (doe - doe / 1460 + doe / 36524 - doe / 146096) / 365;
            && doe / 1460 <= doe && doe / 146096 <= doe - doe / 1460 + doe / 36524
            && yoe < 400 && YearStart(yoe) <= doe
            && doe - YearStart(yoe) <= (if IsLeap(yoe + 1) then 365 else 364)
  {
    var c, k, j, doy := SplitEra(doe);
    YearFormula(doe, c, k, j, doy);
    var yoe := 100 * c + 4 * k + j;
    assert yoe / 4 == 25 * c + k && yoe / 100 == c;
    assert doe - YearStart(yoe) == doy;
    assert (yoe + 1) % 4 == 0 <==> j == 3;
    assert (yoe + 1) % 100 == 0 <==> j == 3 && k == 24;
  }

  lemma YearFound(doe: nat)
    requires doe < 146097
    ensures YearInEra(doe) < 400 && YearStart(YearInEra(doe)) <= doe
    ensures doe - YearStart(YearInEra(doe)) <= (if IsLeap(YearInEra(doe) + 1) then 365 else 364)
  {
    YearOfEra(doe);
  }

  /** A day of a March-based year lies in the month computed for it. */
  lemma MonthOfYear(doy: nat)
    requires doy <= 365
    ensures MonthInYear(doy) <= 11 && MonthStart(MonthInYear(doy)) <= doy < MonthStart(MonthInYear(doy) + 1)
  {
  }

  // --------------------------------------------- the calendar in closed form

  /** Leap days in the years 1 to `y - 1`. */
  function LeapDays(y: nat): int {
    (y - 1) / 4 - (y - 1) / 100 + (y - 1) / 400
  }

  lemma LeapStep(y: nat)
    requires y >= 1
    ensures LeapDays(y + 1) == LeapDays(y) + (if IsLeap(y) then 1 else 0)
  {
    hide IsLeap;
    QuotientSteps(y, 4);
    QuotientSteps(y, 100);
    QuotientSteps(y, 400);
    LeapCases(y);
  }

  lemma LeapCases(y: nat)
    ensures (if IsLeap(y) then 1 else 0)
         == (if y % 4 == 0 then 1 else 0) - (if y % 100 == 0 then 1 else 0) + (if y % 400 == 0 then 1 else 0)
  {
    HundredIsFour(y);
    FourHundredIsHundred(y);
  }

  lemma HundredIsFour(y: nat)
    ensures y % 100 == 0 ==> y % 4 == 0
  {
    if y % 100 == 0 {
      var k := y / 100;
      assert y == 100 * k == 4 * (25 * k);
    }
  }

  lemma FourHundredIsHundred(y: nat)
    ensures y % 400 == 0 ==> y % 100 == 0
  {
    if y % 400 == 0 {
      var k := y / 400;
      assert y == 100 * (4 * k);
    }
  }

  lemma QuotientSteps(y: nat, n: nat)
    requires y >= 1 && (n == 4 || n == 100 || n == 400)
    ensures y / n == (y - 1) / n + (if y % n == 0 then 1 else 0)
  {
  }

  lemma {:induction false} YearsInClosedForm(y: nat)
    requires y >= 1970
    ensures DaysBeforeYear(y) == 365 * (y - 1970) + LeapDays(y) - LeapDays(1970)
    decreases y
  {
    if y > 1970 {
      YearsInClosedForm(y - 1);
      LeapStep(y - 1);
    }
  }

  lemma MonthsInClosedForm(y: nat, m: nat)
    requires 1 <= m <= 12
    ensures m == 2 ==> DaysBeforeMonth(y, m) == 31
    ensures m > 2 ==> DaysBeforeMonth(y, m) == (if IsLeap(y) then 60 else 59) + MonthStart(m - 3)
    ensures m > 2 ==> DaysInMonth(y, m) == MonthStart(m - 2) - MonthStart(m - 3)
  {
    assert DaysBeforeMonth(y, 2) == 31;
    assert DaysBeforeMonth(y, 3) == if IsLeap(y) then 60 else 59;
    if m > 3 { MonthsInClosedForm(y, m - 1); }
  }

  // ---------------------------------------------------------------- theorems

  /** What the algorithm computes on the way: the era, the year of it, the day of that year, the month. */
  lemma DateParts(days: u64) returns (era: nat, yoe: nat, doy: nat, mp: nat)
    requires days + SHIFT < U64_LIMIT
    ensures days + SHIFT == 146097 * era + YearStart(yoe) + doy && yoe < 400
    ensures doy <= (if IsLeap(yoe + 1) then 365 else 364)
    ensures mp <= 11 && MonthStart(mp) <= doy < MonthStart(mp + 1)
    ensures EpochDaysToYmd(days) == DateInYear(yoe + 400 * era, mp, doy)
  {
    hide IsLeap, YearInEra, YearStart, MonthStart, MonthInYear;
    era := (days + SHIFT) / 146097;
    var doe := days + SHIFT - era * 146097;
    YearFound(doe);
    yoe := YearInEra(doe);
    doy := doe - YearStart(yoe);
    MonthOfYear(doy);
    mp := MonthInYear(doy);
  }

  /** The date of a day is a date of the calendar, and the calendar counts that many days to it. */
  lemma DateOfDay(days: u64)
    requires days + SHIFT < U64_LIMIT
    ensures IsDate(EpochDaysToYmd(days)) && EpochDaysToYmd(days).year >= 1970
    ensures DayNumber(EpochDaysToYmd(days)) == days
  {
    hide EpochDaysToYmd, IsDate, DayNumber, LeapDays, IsLeap, YearStart, MonthStart, DateInYear;
    var era, yoe, doy, mp := DateParts(days);
    EraShift(era, yoe);
    DateInYearCounts(yoe + 400 * era, mp, doy);
  }

  function DateInYear(y: nat, mp: nat, doy: nat): Date
    requires MonthStart(mp) <= doy
  {
    var m := if mp < 10 then mp + 3 else mp - 9;
    Date(if m <= 2 then y + 1 else y, m, doy - MonthStart(mp) + 1)
  }

  lemma EraShift(era: nat, yoe: nat)
    requires yoe < 400
    ensures 365 * (yoe + 400 * era) + LeapDays(yoe + 400 * era + 1) == 146097 * era + YearStart(yoe)
    ensures IsLeap(yoe + 400 * era + 1) == IsLeap(yoe + 1)
  {
    var y := yoe + 400 * era;
    EraDivisions(era, yoe);
    EraDivisions(era, yoe + 1);
  }

  lemma EraDivisions(era: nat, x: nat)
    ensures (x + 400 * era) / 4 == x / 4 + 100 * era && (x + 400 * era) % 4 == x % 4
    ensures (x + 400 * era) / 100 == x / 100 + 4 * era && (x + 400 * era) % 100 == x % 100
    ensures (x + 400 * era) / 400 == x / 400 + era && (x + 400 * era) % 400 == x % 400
  {
  }

  /** Day `doy` of the year that begins on the first of March of year `y`. */
  lemma DateInYearCounts(y: nat, mp: nat, doy: nat)
    requires mp <= 11 && MonthStart(mp) <= doy < MonthStart(mp + 1) && doy <= (if IsLeap(y + 1) then 365 else 364)
    requires 365 * y + LeapDays(y + 1) + doy >= SHIFT
    ensures var t := DateInYear(y, mp, doy);
            t.year >= 1970 && IsDate(t) && DayNumber(t) == 365 * y + LeapDays(y + 1) + doy - SHIFT
  {
    var t := DateInYear(y, mp, doy);
    MonthsInClosedForm(t.year, t.month);
    assert LeapDays(1970) == 477;
    assert y < 1970 ==> LeapDays(y + 1) <= 477;
    YearsInClosedForm(t.year);
    if mp < 10 {
      LeapStep(y);
    }
  }

  /** Day 0 is the epoch. */
  lemma EpochIsDayZero()
    ensures EpochDaysToYmd(0) == Date(1970, 1, 1)
  {
    DayOfDate(Date(1970, 1, 1));
  }

  lemma {:induction false} MonthsGrow(y: nat, m: nat, n: nat)
    requires 1 <= m < n <= 13
    ensures DaysBeforeMonth(y, m) + DaysInMonth(y, m) <= DaysBeforeMonth(y, n)
    decreases n
  {
    if m + 1 < n {
      MonthsGrow(y, m, n - 1);
    }
  }

  lemma YearLength(y: nat)
    ensures DaysBeforeMonth(y, 13) == if IsLeap(y) then 366 else 365
  {
    MonthsInClosedForm(y, 12);
  }

  lemma {:induction false} YearsGrow(y: nat, x: nat)
    requires 1970 <= y < x
    ensures DaysBeforeYear(y) + DaysBeforeMonth(y, 13) <= DaysBeforeYear(x)
    decreases x
  {
    YearLength(y);
    if y + 1 < x {
      YearsGrow(y, x - 1);
    }
  }

  predicate Earlier(t: Date, u: Date) {
    || t.year < u.year
    || (t.year == u.year && t.month < u.month)
    || (t.year == u.year && t.month == u.month && t.day < u.day)
  }

  /** Later dates have larger day numbers. */
  lemma DayNumberIncreases(t: Date, u: Date)
    requires IsDate(t) && IsDate(u) && t.year >= 1970 && Earlier(t, u)
    ensures DayNumber(t) < DayNumber(u)
  {
    MonthsGrow(t.year, t.month, 13);
    if t.year < u.year {
      YearsGrow(t.year, u.year);
    } else if t.month < u.month {
      MonthsGrow(t.year, t.month, u.month);
    }
  }

  /** The calendar date of each day number is the only one, so the two functions are inverse. */
  lemma DayOfDate(t: Date)
    requires IsDate(t) && t.year >= 1970 && DayNumber(t) + SHIFT < U64_LIMIT
    ensures EpochDaysToYmd(DayNumber(t)) == t
  {
    hide DayNumber;
    var u := EpochDaysToYmd(DayNumber(t));
    DateOfDay(DayNumber(t));
    if Earlier(t, u) {
      DayNumberIncreases(t, u);
    } else if Earlier(u, t) {
      DayNumberIncreases(u, t);
    }
  }

  /** The day after is the calendar's next day. */
  lemma NextDayOfDay(days: u64)
    requires days + 1 + SHIFT < U64_LIMIT
    ensures EpochDaysToYmd(days + 1) == NextDay(EpochDaysToYmd(days))
  {
    var t := EpochDaysToYmd(days);
    DateOfDay(days);
    NextDayCounts(t);
    DayOfDate(NextDay(t));
  }

  lemma NextDayCounts(t: Date)
    requires IsDate(t) && t.year >= 1970
    ensures IsDate(NextDay(t)) && NextDay(t).year >= 1970 && DayNumber(NextDay(t)) == DayNumber(t) + 1
  {
    YearLength(t.year);
  }

  // --------------------------------------------------------------- time stamps

  datatype Stamp = Stamp(date: Date, hour: nat, minute: nat, second: nat)

  function UtcFields(secs: u64): Stamp {
    var s := secs % 86400;
    var m := s / 60;
    var h := m / 60;
    var days := secs / 86400;
    Stamp(EpochDaysToYmd(days), h, m % 60, s % 60)
  }

  /** No time overflows, and the fields are a time of day and a date that give the seconds back. */
  lemma UtcFieldsExact(secs: u64)
    ensures var f := UtcFields(secs);
            && f.hour < 24 && f.minute < 60 && f.second < 60 && IsDate(f.date) && f.date.year >= 1970
            && 86400 * DayNumber(f.date) + 3600 * f.hour + 60 * f.minute + f.second == secs
  {
    hide DayNumber, IsDate;
    DateOfDay(secs / 86400);
  }

  /** `{:02}` and `{:04}`: decimal digits, padded with zeros to at least `width`. */
  function Padded(n: nat, width: nat): (s: string)
    ensures |s| >= width && |s| >= 1
    decreases n, width
  {
    if n < 10 && width <= 1 then [Digit(n)]
    else Padded(n / 10, if width == 0 then 0 else width - 1) + [Digit(n % 10)]
  }

  function Digit(n: nat): char
    requires n < 10
  {
    "0123456789"[n]
  }

  function UtcText(f: Stamp): string {
    Padded(f.date.year, 4) + "-" + Padded(f.date.month, 2) + "-" + Padded(f.date.day, 2)
    + "T" + Padded(f.hour, 2) + ":" + Padded(f.minute, 2) + ":" + Padded(f.second, 2) + "Z"
  }

  function DigitValue(c: char): nat {
    if '0' <= c <= '9' then (c - '0') as nat else 0
  }

  /** The number a string of digits stands for. */
  function Value(s: string): nat {
    if s == [] then 0 else 10 * Value(s[..|s| - 1]) + DigitValue(s[|s| - 1])
  }

  lemma DigitOf(n: nat)
    requires n < 10
    ensures DigitValue(Digit(n)) == n
  {
  }

  /** Padding keeps the value, and the width is exact for numbers that fit it and only for those. */
  lemma {:induction false} PaddedValue(n: nat, width: nat)
    requires width >= 1
    ensures Value(Padded(n, width)) == n
    ensures |Padded(n, width)| == width <==> n < Power10(width)
    decreases n, width
  {
    hide Digit;
    var s := Padded(n, width);
    DigitOf(n % 10);
    if n < 10 && width == 1 {
      assert s == [Digit(n)] && s[..0] == [];
    } else if width == 1 {
      PaddedValue(n / 10, 1);
      ZeroWidth(n / 10);
      assert s[..|s| - 1] == Padded(n / 10, 0);
      assert Power10(1) == 10;
    } else {
      PaddedValue(n / 10, width - 1);
      assert s[..|s| - 1] == Padded(n / 10, width - 1);
    }
  }

  lemma ZeroWidth(n: nat)
    ensures Padded(n, 0) == Padded(n, 1)
  {
  }

  /** The date-time of section 5.6 with a four-digit year, read at its fixed positions. */
  function ReadUtc(s: string): Option<Stamp> {
    if |s| == 20 && s[4] == '-' && s[7] == '-' && s[10] == 'T' && s[13] == ':' && s[16] == ':' && s[19] == 'Z' then
      Some(Stamp(Date(Value(s[0..4]), Value(s[5..7]), Value(s[8..10])), Value(s[11..13]), Value(s[14..16]), Value(s[17..19])))
    else None
  }

  /** The text is read back exactly as long as the year has four digits, that is until the year 10000. */
  lemma UtcTextExact(secs: u64)
    ensures ReadUtc(UtcText(UtcFields(secs))) == Some(UtcFields(secs)) <==> secs < 253402300800
  {
    hide Padded, Value, DayNumber, IsDate, UtcFields;
    var f := UtcFields(secs);
    FieldWidths(secs);
    var y, mo, d := Padded(f.date.year, 4), Padded(f.date.month, 2), Padded(f.date.day, 2);
    var h, mi, se := Padded(f.hour, 2), Padded(f.minute, 2), Padded(f.second, 2);
    var s := UtcText(f);
    assert |s| == |y| + 16;
    if |y| == 4 {
      assert s[0..4] == y && s[5..7] == mo && s[8..10] == d && s[11..13] == h && s[14..16] == mi && s[17..19] == se;
    }
  }

  lemma FieldWidths(secs: u64)
    ensures var f := UtcFields(secs);
            && |Padded(f.date.month, 2)| == |Padded(f.date.day, 2)| == 2
            && |Padded(f.hour, 2)| == |Padded(f.minute, 2)| == |Padded(f.second, 2)| == 2
            && (|Padded(f.date.year, 4)| == 4 <==> secs < 253402300800)
            && Value(Padded(f.date.year, 4)) == f.date.year && Value(Padded(f.date.month, 2)) == f.date.month
            && Value(Padded(f.date.day, 2)) == f.date.day && Value(Padded(f.hour, 2)) == f.hour
            && Value(Padded(f.minute, 2)) == f.minute && Value(Padded(f.second, 2)) == f.second
  {
    hide Padded, Value, DayNumber, UtcFields;
    var f := UtcFields(secs);
    UtcFieldsExact(secs);
    assert Power10(2) == 100 && Power10(4) == 10000;
    PaddedValue(f.date.year, 4);
    PaddedValue(f.date.month, 2);
    PaddedValue(f.date.day, 2);
    PaddedValue(f.hour, 2);
    PaddedValue(f.minute, 2);
    PaddedValue(f.second, 2);
    YearTenThousand(f);
  }

  lemma YearTenThousand(f: Stamp)
    requires IsDate(f.date) && f.date.year >= 1970
    ensures f.date.year < 10000 <==> DayNumber(f.date) < 2932897
  {
    hide IsLeap, DaysInMonth;
    YearsInClosedForm(10000);
    YearLength(f.date.year);
    MonthsGrow(f.date.year, f.date.month, 13);
    if f.date.year < 10000 {
      YearsGrow(f.date.year, 10000);
    } else if f.date.year > 10000 {
      YearsGrow(10000, f.date.year);
    }
  }
}
