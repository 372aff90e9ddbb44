/**
 Calendar arithmetic of crates/transport-http/src/gameplay.rs: day numbers since 1970-01-01 to
 civil dates, and the decimal date-time stamp. The reference is the Gregorian calendar with the
 leap rule of RFC 3339, Appendix C.
 */
module CivilDate {

  datatype Date = Date(year: int, month: int, day: int)

  // ----- The calendar -----

  predicate IsLeap(year: int) {
    year % 4 == 0 && (year % 100 != 0 || year % 400 == 0)
  }

  function DaysInMonth(year: int, month: int): int {
    if month == 2 then (if IsLeap(year) then 29 else 28)
    else if month in {4, 6, 9, 11} then 30
    else 31
  }

  predicate ValidDate(date: Date) {
    1 <= date.month <= 12 && 1 <= date.day <= DaysInMonth(date.year, date.month)
  }

  function NextDate(date: Date): Date {
    if date.day < DaysInMonth(date.year, date.month) then date.(day := date.day + 1)
    else if date.month < 12 then Date(date.year, date.month + 1, 1)
    else Date(date.year + 1, 1, 1)
  }

  // ----- Day numbers -----

  function DaysBeforeYear(year: int): int {
    365 * (year - 1) + (year - 1) / 4 - (year - 1) / 100 + (year - 1) / 400
  }

  function DaysBeforeMonth(year: int, month: nat): int {
    if month <= 1 then 0 else DaysBeforeMonth(year, month - 1) + DaysInMonth(year, month - 1)
  }

  /** Days from 1970-01-01 to `date`. */
  function DayNumber(date: Date): int
    requires 1 <= date.month <= 12
  {
    DaysBeforeYear(date.year) + DaysBeforeMonth(date.year, date.month) + date.day - 1 - 719162
  }

  lemma MonthTable(year: int)
    ensures DaysBeforeMonth(year, 1) == 0 && DaysBeforeMonth(year, 2) == 31
    ensures var feb := if IsLeap(year) then 29 else 28;
      && DaysBeforeMonth(year, 3) == 31 + feb && DaysBeforeMonth(year, 4) == 62 + feb
      && DaysBeforeMonth(year, 5) == 92 + feb && DaysBeforeMonth(year, 6) == 123 + feb
      && DaysBeforeMonth(year, 7) == 153 + feb && DaysBeforeMonth(year, 8) == 184 + feb
      && DaysBeforeMonth(year, 9) == 215 + feb && DaysBeforeMonth(year, 10) == 245 + feb
      && DaysBeforeMonth(year, 11) == 276 + feb && DaysBeforeMonth(year, 12) == 306 + feb
  {
    assert DaysBeforeMonth(year, 2) == 31;
    assert DaysBeforeMonth(year, 3) == 31 + DaysInMonth(year, 2);
    assert DaysBeforeMonth(year, 5) == DaysBeforeMonth(year, 3) + 61;
    assert DaysBeforeMonth(year, 7) == DaysBeforeMonth(year, 5) + 61;
    assert DaysBeforeMonth(year, 9) == DaysBeforeMonth(year, 7) + 62;
    assert DaysBeforeMonth(year, 11) == DaysBeforeMonth(year, 9) + 61;
  }

  /** Quotients and remainders of a year split at its 400-year cycle. */
  lemma CycleQuotients(cycle: int, n: int)
    requires 0 <= n < 400
    ensures var y := 400 * cycle + n;
      && y / 4 == 100 * cycle + n / 4 && y / 100 == 4 * cycle + n / 100 && y / 400 == cycle
      && y % 4 == n % 4 && y % 100 == n % 100 && y % 400 == n
  {
  }

  lemma SmallStep(n: int)
    ensures (n + 1) / 4 == n / 4 + if (n + 1) % 4 == 0 then 1 else 0
    ensures (n + 1) / 100 == n / 100 + if (n + 1) % 100 == 0 then 1 else 0
    ensures (n + 1) / 400 == n / 400 + if (n + 1) % 400 == 0 then 1 else 0
    ensures n % 400 == 0 ==> n % 100 == 0
    ensures n % 100 == 0 ==> n % 4 == 0
  {
    CycleQuotients(n / 400, n % 400);
  }

  lemma YearStep(year: int)
    ensures DaysBeforeYear(year + 1) == DaysBeforeYear(year) + if IsLeap(year) then 366 else 365
  {
    SmallStep(year - 1);
    SmallStep(year);
  }

  // ----- The conversion -----

  function YearOfEra(dayOfEra: int): int {
    (dayOfEra - dayOfEra / 1460 + dayOfEra / 36_524 - dayOfEra / 146_096) / 365
  }

  /** Days of an era before its year `y`; years of an era start on 1 March. */
  function EraYearStart(y: int): int {
    365 * y + y / 4 - y / 100
  }

  /** Day `s` of four-year cycle `q` of century `c` lies in year `100c + 4q + j`, j = min(s / 365, 3). */
  lemma YearWithinCentury(c: int, q: int, s: int)
    requires 0 <= c <= 3 && 0 <= q <= 24 && 0 <= s <= 1460 && 1461 * q + s < 36_524
    ensures var doe := 36_524 * c + 1461 * q + s;
      var j := if s == 1460 then 3 else s / 365;
      && YearOfEra(doe) == 100 * c + 4 * q + j
      && EraYearStart(YearOfEra(doe)) == doe - (s - 365 * j)
  {
    var doe := 36_524 * c + 1461 * q + s;
    var t := if q + s + 24 * c >= 1460 then 1 else 0;
    assert doe / 1460 == 25 * c + q + t;
    assert doe / 36_524 == c && doe / 146_096 == 0;
    var j := if s == 1460 then 3 else s / 365;
    assert doe - doe / 1460 + doe / 36_524 == 36_500 * c + 1460 * q + (s - t);
    assert (s - t) / 365 == j;
    var y := 100 * c + 4 * q + j;
    assert y / 4 == 25 * c + q && y / 100 == c;
  }

  /** Inside its era, a day's year starts on or before it, and it is the 366th day only of a leap year. */
  lemma YearOfEraIsRight(doe: nat)
    requires doe < 146_097
    ensures var y := YearOfEra(doe);
      && 0 <= y < 400
      && EraYearStart(y) <= doe <= EraYearStart(y) + 365
      && (doe == EraYearStart(y) + 365 ==> IsLeap(y + 1))
  {
    if doe == 146_096 {
      assert YearOfEra(doe) == 399;
    } else {
      var c, r := doe / 36_524, doe % 36_524;
      var q, s := r / 1461, r % 1461;
      assert doe == 36_524 * c + 1461 * q + s;
      YearWithinCentury(c, q, s);
    }
  }

  /** The formula applied one era too far still finds a year of that era, but counts one day too many. */
  lemma YearBeyondEra(doe: nat)
    requires 146_097 <= doe < 292_193
    ensures var y := YearOfEra(doe); 400 <= y < 800 && 0 <= doe - EraYearStart(y) <= 366
  {
    if doe == 292_192 {
      assert YearOfEra(doe) == 799;
    } else {
      var c, r := doe / 36_524, doe % 36_524;
      var q, s := r / 1461, r % 1461;
      assert doe == 36_524 * c + 1461 * q + s && 4 <= c <= 7 && 0 <= q <= 24;
      var t := if q + s + 24 * c >= 1460 then 1 else 0;
      assert doe / 1460 == 25 * c + q + t;
      assert doe / 146_096 == 1;
      var j := (s - t - 1) / 365;
      var y := 100 * c + 4 * q + j;
      assert YearOfEra(doe) == y;
      assert -1 <= j <= 3;
      if j >= 0 {
        assert y / 4 == 25 * c + q && y / 100 == c;
      } else if q >= 1 {
        assert y / 4 == 25 * c + q - 1 && y / 100 == c;
      } else {
        assert y / 4 == 25 * c - 1 && y / 100 == c - 1;
      }
    }
  }

  function Era(days: int): int {
    var z := days + 719_468;
    (if z >= 0 then z else z - 146_096) / 146_097
  }

  function DayOfEra(days: int): int {
    days + 719_468 - Era(days) * 146_097
  }

  /** Day `doy` of the year that starts on 1 March of `marchYear`, as the month formula renders it. */
  function MarchDate(marchYear: int, doy: int): Date {
    var mp := (5 * doy + 2) / 153;
    var month := mp + if mp < 10 then 3 else -9;
    Date(marchYear + (if month <= 2 then 1 else 0), month, doy - (153 * mp + 2) / 5 + 1)
  }

  /** `civil_from_days` before its final casts to `i32`. Every dividend after the era is non-negative. */
  function WideCivil(days: int): Date {
    var doe := DayOfEra(days);
    var yearOfEra := YearOfEra(doe);
    MarchDate(yearOfEra + Era(days) * 400, doe - EraYearStart(yearOfEra))
  }

  lemma MarchDateIsRight(marchYear: int, doy: int)
    requires 0 <= doy <= 366
    ensures var date := MarchDate(marchYear, doy);
      && 1 <= date.month <= 12
      && DayNumber(date) == DaysBeforeYear(marchYear + 1) - 306 + doy - 719_162
      && (doy < 365 || (doy == 365 && IsLeap(marchYear + 1)) ==> ValidDate(date))
  {
    hide DaysBeforeMonth, DaysBeforeYear, IsLeap;
    MonthTable(marchYear);
    MonthTable(marchYear + 1);
    YearStep(marchYear);
    var mp := (5 * doy + 2) / 153;
    assert 0 <= mp <= 11;
  }

  lemma DaysBeforeEraYear(era: int, y: int)
    requires 0 <= y < 800
    ensures DaysBeforeYear(era * 400 + y + 1) == era * 146_097 + EraYearStart(y) + y / 400
  {
    CycleQuotients(era + y / 400, y % 400);
    CycleQuotients(y / 400, y % 400);
  }

  /** The day numbers on which the conversion is right. */
  predicate Convertible(days: int) {
    var z := days + 719_468;
    z >= 0 || z % 146_097 == 146_096
  }

  /**
   `civil_from_days` yields the valid Gregorian date of a day number exactly on convertible days:
   all days from 0000-03-01 on, and before that only the last day of each 400-year era. On every
   other day its result counts to the following day.
   */
  lemma CivilExactly(days: int)
    ensures var date := WideCivil(days);
      && 1 <= date.month <= 12
      && (Convertible(days) <==> ValidDate(date) && DayNumber(date) == days)
      && (!Convertible(days) ==> DayNumber(date) == days + 1)
  {
    hide YearOfEra, EraYearStart, MarchDate, ValidDate, IsLeap, DaysBeforeYear, DayNumber;
    var era, doe := Era(days), DayOfEra(days);
    DayOfEraRange(days);
    if Convertible(days) {
      YearOfEraIsRight(doe);
      LeapInEra(era, YearOfEra(doe) + 1);
    } else {
      YearBeyondEra(doe);
    }
    var y := YearOfEra(doe);
    MarchDateIsRight(y + era * 400, doe - EraYearStart(y));
    DaysBeforeEraYear(era, y);
    assert y / 400 == if Convertible(days) then 0 else 1;
  }

  lemma DayOfEraRange(days: int)
    ensures Convertible(days) <==> 0 <= DayOfEra(days) < 146_097
    ensures !Convertible(days) <==> 146_097 <= DayOfEra(days) < 292_193
  {
  }

  lemma LeapInEra(era: int, y: int)
    ensures IsLeap(era * 400 + y) <==> IsLeap(y)
  {
    CycleQuotients(era + y / 400, y % 400);
    CycleQuotients(y / 400, y % 400);
  }

  // ----- Dates are ordered as their day numbers -----

  lemma {:induction false} DaysBeforeYearGrows(a: int, b: int)
    requires a < b
    ensures DaysBeforeYear(a + 1) <= DaysBeforeYear(b)
    decreases b - a
  {
    if a + 1 < b {
      YearStep(b - 1);
      DaysBeforeYearGrows(a, b - 1);
    }
  }

  lemma DayOfYearRange(date: Date)
    requires ValidDate(date)
    ensures DaysBeforeYear(date.year) <= DayNumber(date) + 719_162 < DaysBeforeYear(date.year + 1)
  {
    hide DaysBeforeYear, IsLeap;
    MonthTable(date.year);
    YearStep(date.year);
  }

  predicate Before(a: Date, b: Date) {
    || a.year < b.year
    || (a.year == b.year && (a.month < b.month || (a.month == b.month && a.day < b.day)))
  }

  lemma EarlierDateSmallerNumber(a: Date, b: Date)
    requires ValidDate(a) && ValidDate(b) && Before(a, b)
    ensures DayNumber(a) < DayNumber(b)
  {
    hide DaysBeforeYear, IsLeap;
    if a.year < b.year {
      DayOfYearRange(a);
      DayOfYearRange(b);
      DaysBeforeYearGrows(a.year, b.year);
    } else {
      MonthTable(a.year);
    }
  }

  /** Day numbers order and identify valid dates. */
  lemma DayNumberOrdersDates(a: Date, b: Date)
    requires ValidDate(a) && ValidDate(b)
    ensures DayNumber(a) < DayNumber(b) <==> Before(a, b)
    ensures DayNumber(a) == DayNumber(b) <==> a == b
  {
    if Before(a, b) {
      EarlierDateSmallerNumber(a, b);
    } else if a != b {
      EarlierDateSmallerNumber(b, a);
    }
  }

  lemma NextDateNextNumber(date: Date)
    requires ValidDate(date)
    ensures ValidDate(NextDate(date)) && DayNumber(NextDate(date)) == DayNumber(date) + 1
  {
    hide DaysBeforeYear, IsLeap;
    MonthTable(date.year);
    MonthTable(date.year + 1);
    YearStep(date.year);
  }

  // ----- The results of the source's functions -----

  const FIRST_DAY := -719_468
  const MAX_YEAR := 0x7fff_ffff

  function WrapI32(x: int): int {
    (x + 0x8000_0000) % 0x1_0000_0000 - 0x8000_0000
  }

  /** `civil_from_days`: the final year, month and day are cast to `i32`. */
  function CivilFromDays(days: int): Date {
    var date := WideCivil(days);
    Date(WrapI32(date.year), WrapI32(date.month), WrapI32(date.day))
  }

  lemma CastsAreExact(days: int)
    requires Convertible(days) && -0x8000_0000 <= WideCivil(days).year <= MAX_YEAR
    ensures CivilFromDays(days) == WideCivil(days)
  {
    hide WideCivil, DayNumber;
    CivilExactly(days);
    DayAtMost31(WideCivil(days));
  }

  lemma YearsInRange(days: int)
    requires FIRST_DAY <= days <= DayNumber(Date(MAX_YEAR, 12, 31))
    ensures 0 <= WideCivil(days).year <= MAX_YEAR && CivilFromDays(days) == WideCivil(days)
  {
    CivilExactly(days);
    var last := Date(MAX_YEAR, 12, 31);
    DayNumberOrdersDates(last, WideCivil(days));
    var first := Date(0, 3, 1);
    assert DayNumber(first) == FIRST_DAY by {
      MonthTable(0);
      assert IsLeap(0);
    }
    DayNumberOrdersDates(WideCivil(days), first);
    CastsAreExact(days);
  }

  /** From 0000-03-01 on, and as far as years fit `i32`: the one valid date with that day number. */
  lemma CivilFromDaysIsGregorian(days: int, date: Date)
    requires FIRST_DAY <= days <= DayNumber(Date(MAX_YEAR, 12, 31))
    ensures CivilFromDays(days) == date <==> ValidDate(date) && DayNumber(date) == days
  {
    CivilExactly(days);
    YearsInRange(days);
    if ValidDate(date) {
      DayNumberOrdersDates(date, CivilFromDays(days));
    }
  }

  /** The conversion walks the calendar: it starts at the epoch and steps to the next date each day. */
  lemma CivilFromDaysWalksCalendar(days: int)
    requires FIRST_DAY <= days < DayNumber(Date(MAX_YEAR, 12, 31))
    ensures CivilFromDays(0) == Date(1970, 1, 1)
    ensures CivilFromDays(days + 1) == NextDate(CivilFromDays(days))
  {
    var date := CivilFromDays(days);
    CivilFromDaysIsGregorian(days, date);
    NextDateNextNumber(date);
    CivilFromDaysIsGregorian(days + 1, NextDate(date));
    assert DayNumber(Date(1970, 1, 1)) == 0 by {
      MonthTable(1970);
    }
    CivilFromDaysIsGregorian(0, Date(1970, 1, 1));
  }

  /** Date and time of day as the decimal number YYYYMMDDhhmmss. */
  function Stamp(date: Date, seconds: int): int {
    date.year * 10_000_000_000 + date.month * 100_000_000 + date.day * 1_000_000 + TimeDigits(seconds)
  }

  /** A second of the day as hhmmss. */
  function TimeDigits(seconds: int): int {
    var hour, minute, second := seconds / 3600, seconds % 3600 / 60, seconds % 60;
    hour * 10_000 + minute * 100 + second
  }

  /** `device_datetime_number`. */
  function DeviceDatetimeNumber(unixSeconds: int, utcOffsetMinutes: int): int {
    var local := unixSeconds + utcOffsetMinutes * 60;
    Stamp(CivilFromDays(local / 86_400), local % 86_400)
  }

  /** The local instants whose stamp fits `i64`. */
  predicate Stampable(local: int) {
    FIRST_DAY <= local / 86_400 <= DayNumber(Date(922_337_202, 12, 31))
  }

  lemma StampableDays(local: int)
    requires Stampable(local)
    ensures FIRST_DAY <= local / 86_400 < DayNumber(Date(MAX_YEAR, 12, 31))
    ensures ValidDate(CivilFromDays(local / 86_400))
    ensures DayNumber(CivilFromDays(local / 86_400)) == local / 86_400
    ensures 0 <= CivilFromDays(local / 86_400).year <= 922_337_202
  {
    var days := local / 86_400;
    var last := Date(922_337_202, 12, 31);
    DayNumberOrdersDates(last, Date(MAX_YEAR, 12, 31));
    CivilFromDaysIsGregorian(days, CivilFromDays(days));
    YearsInRange(days);
    DayNumberOrdersDates(last, CivilFromDays(days));
  }

  /** The decimal fields of the stamp recover the local date and time, and the stamp fits `i64`. */
  lemma StampFields(unixSeconds: int, utcOffsetMinutes: int)
    requires Stampable(unixSeconds + utcOffsetMinutes * 60)
    ensures var n := DeviceDatetimeNumber(unixSeconds, utcOffsetMinutes);
      var date := Date(n / 10_000_000_000, n / 100_000_000 % 100, n / 1_000_000 % 100);
      && 0 <= n < 0x8000_0000_0000_0000
      && ValidDate(date)
      && DayNumber(date) * 86_400 + n / 10_000 % 100 * 3600 + n / 100 % 100 * 60 + n % 100
         == unixSeconds + utcOffsetMinutes * 60
  {
    hide CivilFromDays, DayNumber, Stamp;
    var local := unixSeconds + utcOffsetMinutes * 60;
    StampableDays(local);
    var date, seconds := CivilFromDays(local / 86_400), local % 86_400;
    DayAtMost31(date);
    StampDigits(date, seconds);
  }

  lemma StampDigits(date: Date, seconds: int)
    requires 0 <= date.year && 0 <= date.month < 100 && 0 <= date.day < 100 && 0 <= seconds < 86_400
    ensures var n := Stamp(date, seconds);
      && n / 10_000_000_000 == date.year && n / 100_000_000 % 100 == date.month && n / 1_000_000 % 100 == date.day
      && n / 10_000 % 100 * 3600 + n / 100 % 100 * 60 + n % 100 == seconds
      && date.year * 10_000_000_000 <= n < (date.year + 1) * 10_000_000_000
  {
    ClockFields(seconds);
    DecimalFields(date.year, date.month, date.day, seconds / 3600, seconds % 3600 / 60, seconds % 60);
  }

  lemma DecimalFields(year: int, month: int, day: int, hour: int, minute: int, second: int)
    requires 0 <= year && 0 <= month < 100 && 0 <= day < 100
    requires 0 <= hour < 100 && 0 <= minute < 100 && 0 <= second < 100
    ensures var n := year * 10_000_000_000 + month * 100_000_000 + day * 1_000_000
        + hour * 10_000 + minute * 100 + second;
      && n / 10_000_000_000 == year && n / 100_000_000 % 100 == month && n / 1_000_000 % 100 == day
      && n / 10_000 % 100 == hour && n / 100 % 100 == minute && n % 100 == second
  {
    var n := year * 10_000_000_000 + month * 100_000_000 + day * 1_000_000
        + hour * 10_000 + minute * 100 + second;
    assert n / 100 == year * 100_000_000 + month * 1_000_000 + day * 10_000 + hour * 100 + minute;
    assert n / 10_000 == year * 1_000_000 + month * 10_000 + day * 100 + hour;
    assert n / 1_000_000 == year * 10_000 + month * 100 + day;
    assert n / 100_000_000 == year * 100 + month;
  }

  lemma TimeDigitsOrder(s: int, t: int)
    requires 0 <= s < 86_400 && 0 <= t < 86_400
    ensures 0 <= TimeDigits(s) < 240_000 && 0 <= TimeDigits(t) < 240_000
    ensures s < t ==> TimeDigits(s) < TimeDigits(t)
  {
    ClockFields(s);
    ClockFields(t);
    if s < t {
      FieldOrder(s / 3600, s % 3600 / 60, s % 60, t / 3600, t % 3600 / 60, t % 60);
    }
  }

  lemma ClockFields(s: int)
    requires 0 <= s < 86_400
    ensures 0 <= s / 3600 < 24 && 0 <= s % 3600 / 60 < 60 && 0 <= s % 60 < 60
    ensures s == s / 3600 * 3600 + s % 3600 / 60 * 60 + s % 60
  {
    var rest := s % 3600;
    assert s == s / 3600 * 3600 + rest && 0 <= rest < 3600;
    assert rest == rest / 60 * 60 + rest % 60;
  }

  lemma FieldOrder(h: int, m: int, s: int, h': int, m': int, s': int)
    requires 0 <= m < 60 && 0 <= s < 60 && 0 <= m' < 60 && 0 <= s' < 60
    requires h * 3600 + m * 60 + s < h' * 3600 + m' * 60 + s'
    ensures h * 10_000 + m * 100 + s < h' * 10_000 + m' * 100 + s'
  {
    if h == h' && m == m' {
    } else if h == h' {
      assert m < m';
    } else {
      assert h < h';
    }
  }

  /** The stamp orders dates first and seconds of the day second. */
  lemma StampOrder(a: Date, s: int, b: Date, t: int)
    requires ValidDate(a) && ValidDate(b) && 0 <= s < 86_400 && 0 <= t < 86_400
    requires Before(a, b) || (a == b && s < t)
    ensures Stamp(a, s) < Stamp(b, t)
  {
    hide DaysInMonth, TimeDigits;
    DayAtMost31(a);
    DayAtMost31(b);
    TimeDigitsOrder(s, t);
    if a != b {
      assert a.year * 10_000 + a.month * 100 + a.day < b.year * 10_000 + b.month * 100 + b.day;
    }
  }

  /** The stamp is strictly increasing in local time. */
  lemma StampIncreases(unixA: int, offsetA: int, unixB: int, offsetB: int)
    requires Stampable(unixA + offsetA * 60) && Stampable(unixB + offsetB * 60)
    ensures unixA + offsetA * 60 < unixB + offsetB * 60
       <==> DeviceDatetimeNumber(unixA, offsetA) < DeviceDatetimeNumber(unixB, offsetB)
  {
    hide CivilFromDays, DayNumber, Stamp, ValidDate;
    var a, b := unixA + offsetA * 60, unixB + offsetB * 60;
    StampableDays(a);
    StampableDays(b);
    var dateA, dateB := CivilFromDays(a / 86_400), CivilFromDays(b / 86_400);
    DayNumberOrdersDates(dateA, dateB);
    DayNumberOrdersDates(dateB, dateA);
    if a < b {
      StampOrder(dateA, a % 86_400, dateB, b % 86_400);
    } else if b < a {
      StampOrder(dateB, b % 86_400, dateA, a % 86_400);
    }
  }

  lemma DayAtMost31(date: Date)
    requires ValidDate(date)
    ensures date.day <= 31
  {
  }
}
