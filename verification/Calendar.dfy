/**
 The date arithmetic of terminal/src/text.rs: a millisecond timestamp, before or after 1970, becomes a
 UTC date and time. The reference is the proleptic Gregorian calendar: leap years, month lengths, the
 next day, and the number of days from 1 January 1970. All divisions are Euclidean, as in the source.
 */
module Calendar {

  datatype Date = Date(year: int, month: int, day: int)

  datatype DateTime = DateTime(date: Date, hour: int, minute: int)

  // ---- The arithmetic ----

  function YearOfEra(doe: int): int {
    (doe - doe / 1460 + doe / 36_524 - doe / 146_096) / 365
  }

  /** Days of the era before its year `yoe`, which starts on 1 March. */
  function DaysBefore(yoe: int): int {
    365 * yoe + yoe / 4 - yoe / 100
  }

  /** Month and day from the day of a year that starts on 1 March. */
  function MonthDay(year: int, doy: int): Date {
    var mp := (5 * doy + 2) / 153;
    var d := doy - (153 * mp + 2) / 5 + 1;
    var m := if mp < 10 then mp + 3 else mp - 9;
    Date(if m <= 2 then year + 1 else year, m, d)
  }

  function EraDate(era: int, doe: int): Date {
    var yoe := YearOfEra(doe);
    MonthDay(yoe + era * 400, doe - DaysBefore(yoe))
  }

  function Civil(days: int): Date {
    var z := days + 719_468;
    EraDate(z / 146_097, z % 146_097)
  }

  function DatetimeUtc(atMs: int): DateTime {
    var secs := atMs / 1000;
    var days := secs / 86_400;
    var daySecs := secs % 86_400;
    DateTime(Civil(days), daySecs / 3600, (daySecs % 3600) / 60)
  }

  // ---- The calendar ----

  predicate Leap(year: int) {
    year % 4 == 0 && (year % 100 != 0 || year % 400 == 0)
  }

  function DaysIn(year: int, month: int): int {
    if month == 2 then (if Leap(year) then 29 else 28)
    else if month == 4 || month == 6 || month == 9 || month == 11 then 30
    else 31
  }

  predicate Valid(date: Date) {
    1 <= date.month <= 12 && 1 <= date.day <= DaysIn(date.year, date.month)
  }

  function NextDay(date: Date): Date {
    if date.day < DaysIn(date.year, date.month) then date.(day := date.day + 1)
    else if date.month < 12 then Date(date.year, date.month + 1, 1)
    else Date(date.year + 1, 1, 1)
  }

  /** Days of `year` before the first of `month`. */
  function DaysBeforeMonth(year: int, month: int): int
    requires 1 <= month <= 12
    decreases month
  {
    if month == 1 then 0 else DaysBeforeMonth(year, month - 1) + DaysIn(year, month - 1)
  }

  /** Days from 1 January of year 1 to 1 January of `year`. */
  function DaysBeforeYear(year: int): int {
    365 * (year - 1) + (year - 1) / 4 - (year - 1) / 100 + (year - 1) / 400
  }

  /** Days from 1 January 1970. */
  function DayNumber(date: Date): int
    requires 1 <= date.month <= 12
  {
    DaysBeforeYear(date.year) + DaysBeforeMonth(date.year, date.month) + date.day - 1 - 719_162
  }

  // ---- The calendar counts days ----

  /** A multiple of n is where the quotient moves on. */
  lemma QuotientSteps(y: int)
    ensures y / 4 == (y - 1) / 4 + if y % 4 == 0 then 1 else 0
    ensures y / 100 == (y - 1) / 100 + if y % 100 == 0 then 1 else 0
    ensures y / 400 == (y - 1) / 400 + if y % 400 == 0 then 1 else 0
  {
    QuotientStep(y, y / 4, y % 4, 4);
    QuotientStep(y, y / 100, y % 100, 100);
    QuotientStep(y, y / 400, y % 400, 400);
  }

  lemma QuotientStep(y: int, q: int, r: int, n: int)
    requires n == 4 || n == 100 || n == 400
    requires y == n * q + r && 0 <= r < n
    ensures (y - 1) / n == if r == 0 then q - 1 else q
  {
    if n == 4 {
    } else if n == 100 {
    } else {
    }
  }

  lemma MultiplesNest(y: int)
    ensures y % 400 == 0 ==> y % 100 == 0
    ensures y % 100 == 0 ==> y % 4 == 0
  {
    if y % 400 == 0 {
      Remainder(y, 4 * (y / 400), 0, 100);
    }
    if y % 100 == 0 {
      Remainder(y, 25 * (y / 100), 0, 4);
    }
  }

  lemma YearLength(year: int)
    ensures DaysBeforeYear(year + 1) == DaysBeforeYear(year) + if Leap(year) then 366 else 365
  {
    QuotientSteps(year);
    MultiplesNest(year);
  }

  lemma MonthTable(year: int, month: int)
    requires 1 <= month <= 12
    ensures DaysBeforeMonth(year, month) ==
            [0, 31, 59, 90, 120, 151, 181, 212, 243, 273, 304, 334][month - 1] + if month > 2 && Leap(year) then 1 else 0
    decreases month
  {
    if month > 1 {
      MonthTable(year, month - 1);
    }
  }

  /** Day numbers count days: they start at 1 January 1970 and the next day has the next number. */
  lemma DayNumberCounts(date: Date)
    requires Valid(date)
    ensures DayNumber(Date(1970, 1, 1)) == 0
    ensures Valid(NextDay(date)) && DayNumber(NextDay(date)) == DayNumber(date) + 1
  {
    MonthTable(date.year, date.month);
    MonthTable(NextDay(date).year, NextDay(date).month);
    YearLength(date.year);
  }

  // ---- Years of an era ----

  /** A day of the era as century, four-year block, and day of the block. */
  predicate Parts(doe: int, c: int, b: int, s: int) {
    && 0 <= c <= 3 && 0 <= b <= 24 && 0 <= s <= 1460 && 1461 * b + s <= 36_523
    && doe == 36_524 * c + 1461 * b + s
  }

  function YearOfBlock(s: int): int {
    if s >= 1095 then 3 else s / 365
  }

  lemma PartsExist(doe: int)
    requires 0 <= doe < 146_096
    ensures Parts(doe, doe / 36_524, (doe % 36_524) / 1461, (doe % 36_524) % 1461)
  {
  }

  /** The corrected quotient is the year counted block by block. */
  lemma YearFromParts(doe: int, c: int, b: int, s: int)
    requires Parts(doe, c, b, s)
    ensures YearOfEra(doe) == 100 * c + 4 * b + YearOfBlock(s)
  {
    var e := if 24 * c + b + s >= 1460 then 1 else 0;
    assert doe == 1460 * (25 * c + b + e) + (24 * c + b + s - 1460 * e);
    assert doe / 1460 == 25 * c + b + e;
    assert doe / 36_524 == c;
    assert doe / 146_096 == 0;
    var n := 36_500 * c + 1460 * b + s - e;
    assert YearOfEra(doe) == n / 365;
    var k := YearOfBlock(s);
    assert 365 * k <= s - e < 365 * k + 365;
    assert n == 365 * (100 * c + 4 * b + k) + (s - e - 365 * k);
  }

  lemma DaysBeforeParts(c: int, b: int, k: int)
    requires 0 <= c <= 3 && 0 <= b <= 24 && 0 <= k <= 3
    ensures DaysBefore(100 * c + 4 * b + k) == 36_524 * c + 1461 * b + 365 * k
  {
    var y := 100 * c + 4 * b + k;
    assert y == 4 * (25 * c + b) + k;
    assert y == 100 * c + (4 * b + k);
  }

  /** The year found holds the day: the day of the year it leaves is within that year's length. */
  lemma YearHoldsDay(doe: int)
    requires 0 <= doe < 146_097
    ensures var yoe := YearOfEra(doe); var doy := doe - DaysBefore(yoe);
            && 0 <= yoe <= 399
            && 0 <= doy <= 365
            && (doy == 365 ==> Leap(yoe + 1))
  {
    if doe == 146_096 {
      assert YearOfEra(doe) == 399;
    } else {
      var c, b, s := doe / 36_524, (doe % 36_524) / 1461, (doe % 36_524) % 1461;
      PartsExist(doe);
      YearFromParts(doe, c, b, s);
      DaysBeforeParts(c, b, YearOfBlock(s));
      if s - 365 * YearOfBlock(s) == 365 {
        LeapBlock(c, b);
      }
    }
  }

  lemma LeapBlock(c: int, b: int)
    requires 0 <= c <= 3 && 0 <= b <= 23
    ensures Leap(100 * c + 4 * b + 4)
  {
    var y := 100 * c + 4 * b + 4;
    assert y == 4 * (25 * c + b + 1);
    assert y == 100 * c + (4 * b + 4);
  }

  // ---- Days of a year that starts in March ----

  /** Day number of 1 March of `year`. */
  function MarchFirst(year: int): int {
    365 * year + year / 4 - year / 100 + year / 400 - 719_468
  }

  lemma MarchTable(mp: int)
    requires 0 <= mp <= 11
    ensures (153 * mp + 2) / 5 == [0, 31, 61, 92, 122, 153, 184, 214, 245, 275, 306, 337][mp]
  {
  }

  lemma MonthOfDay(doy: int)
    requires 0 <= doy <= 365
    ensures var mp := (5 * doy + 2) / 153;
            && 0 <= mp <= 11
            && (153 * mp + 2) / 5 <= doy
            && (mp < 11 ==> doy < (153 * (mp + 1) + 2) / 5)
  {
  }

  lemma MarchAfterJanuary(year: int)
    ensures MarchFirst(year) == DaysBeforeYear(year) + 59 + (if Leap(year) then 1 else 0) - 719_162
    ensures MarchFirst(year) == DaysBeforeYear(year + 1) - 719_468
  {
    QuotientSteps(year);
    MultiplesNest(year);
  }

  /** The number, given where the month starts in the year. */
  lemma NumberFromMarch(year: int, mp: int, day: int)
    requires 0 <= mp <= 11
    ensures var date := Date(if mp < 10 then year else year + 1, if mp < 10 then mp + 3 else mp - 9, day);
            DayNumber(date) == MarchFirst(year) + (153 * mp + 2) / 5 + day - 1
  {
    MarchAfterJanuary(year);
    MarchTable(mp);
    MonthTable(if mp < 10 then year else year + 1, if mp < 10 then mp + 3 else mp - 9);
  }

  lemma DayInMonth(year: int, doy: int)
    requires 0 <= doy <= 365 && (doy == 365 ==> Leap(year + 1))
    ensures Valid(MonthDay(year, doy))
  {
    var mp := (5 * doy + 2) / 153;
    MonthOfDay(doy);
    MarchTable(mp);
    if mp < 11 {
      MarchTable(mp + 1);
    }
  }

  /** Month and day of a day of the year form a valid date, with the right number. */
  lemma MonthDayRight(year: int, doy: int)
    requires 0 <= doy <= 365 && (doy == 365 ==> Leap(year + 1))
    ensures Valid(MonthDay(year, doy))
    ensures DayNumber(MonthDay(year, doy)) == MarchFirst(year) + doy
  {
    var mp := (5 * doy + 2) / 153;
    MonthOfDay(doy);
    DayInMonth(year, doy);
    NumberFromMarch(year, mp, doy - (153 * mp + 2) / 5 + 1);
  }

  lemma EraShift(yoe: int, era: int)
    requires 0 <= yoe <= 399
    ensures MarchFirst(yoe + era * 400) == DaysBefore(yoe) + 146_097 * era - 719_468
  {
    var y := yoe + era * 400;
    assert y == 4 * (yoe / 4 + 100 * era) + yoe % 4;
    assert y == 100 * (yoe / 100 + 4 * era) + yoe % 100;
    assert y == 400 * era + yoe;
    assert y / 4 == yoe / 4 + 100 * era;
    assert y / 100 == yoe / 100 + 4 * era;
    assert y / 400 == era;
  }

  lemma Remainder(z: int, q: int, r: int, n: int)
    requires n == 4 || n == 100 || n == 400
    requires z == n * q + r && 0 <= r < n
    ensures z % n == r
  {
    if n == 4 {
    } else if n == 100 {
    } else {
    }
  }

  lemma LeapShift(y: int, era: int)
    requires Leap(y)
    ensures Leap(y + era * 400)
  {
    Remainder(y + era * 400, y / 4 + 100 * era, y % 4, 4);
    Remainder(y + era * 400, y / 100 + 4 * era, y % 100, 100);
    Remainder(y + era * 400, y / 400 + era, y % 400, 400);
  }

  // ---- Main results ----

  lemma EraDayRight(era: int, doe: int, yoe: int)
    requires 0 <= yoe <= 399 && 0 <= doe - DaysBefore(yoe) <= 365 && (doe - DaysBefore(yoe) == 365 ==> Leap(yoe + 1))
    ensures var date := MonthDay(yoe + era * 400, doe - DaysBefore(yoe));
            Valid(date) && DayNumber(date) == 146_097 * era + doe - 719_468
  {
    EraShift(yoe, era);
    if doe - DaysBefore(yoe) == 365 {
      LeapShift(yoe + 1, era);
    }
    MonthDayRight(yoe + era * 400, doe - DaysBefore(yoe));
  }

  lemma EraDateRight(era: int, doe: int)
    requires 0 <= doe < 146_097
    ensures Valid(EraDate(era, doe)) && DayNumber(EraDate(era, doe)) == 146_097 * era + doe - 719_468
  {
    YearHoldsDay(doe);
    EraDayRight(era, doe, YearOfEra(doe));
  }

  /** For every day number, positive or negative, the date is valid and its day number is the one started from. */
  lemma CivilRight(days: int)
    ensures Valid(Civil(days)) && DayNumber(Civil(days)) == days
  {
    var z := days + 719_468;
    EraDateRight(z / 146_097, z % 146_097);
  }

  lemma YearsApart(a: int, b: int)
    requires a < b
    ensures DaysBeforeYear(a) + 365 <= DaysBeforeYear(b)
    decreases b - a
  {
    YearLength(b - 1);
    if a + 1 < b {
      YearsApart(a, b - 1);
    }
  }

  lemma DayOfYear(date: Date)
    requires Valid(date)
    ensures var n := DayNumber(date) + 719_162;
            DaysBeforeYear(date.year) <= n < DaysBeforeYear(date.year + 1)
  {
    MonthTable(date.year, date.month);
    YearLength(date.year);
  }

  lemma MonthsApart(year: int, a: int, b: int)
    requires 1 <= a < b <= 12
    ensures DaysBeforeMonth(year, a) + DaysIn(year, a) <= DaysBeforeMonth(year, b)
    decreases b
  {
    if a + 1 < b {
      MonthsApart(year, a, b - 1);
    }
  }

  lemma SameYear(a: Date, b: Date)
    requires Valid(a) && Valid(b) && DayNumber(a) == DayNumber(b)
    ensures a.year == b.year
  {
    DayOfYear(a);
    DayOfYear(b);
    if a.year < b.year {
      if a.year + 1 < b.year {
        YearsApart(a.year + 1, b.year);
      }
    } else if b.year < a.year {
      if b.year + 1 < a.year {
        YearsApart(b.year + 1, a.year);
      }
    }
  }

  /** A valid date is determined by its day number. */
  lemma DayNumberInjective(a: Date, b: Date)
    requires Valid(a) && Valid(b) && DayNumber(a) == DayNumber(b)
    ensures a == b
  {
    SameYear(a, b);
    if a.month < b.month {
      MonthsApart(a.year, a.month, b.month);
    } else if b.month < a.month {
      MonthsApart(a.year, b.month, a.month);
    }
  }

  /** The date of a valid date's day number is that date, and one day later is the next calendar date. */
  lemma CivilInverse(date: Date)
    requires Valid(date)
    ensures Civil(DayNumber(date)) == date
    ensures Civil(DayNumber(date) + 1) == NextDay(date)
  {
    CivilRight(DayNumber(date));
    DayNumberInjective(Civil(DayNumber(date)), date);
    DayNumberCounts(date);
    CivilRight(DayNumber(date) + 1);
    DayNumberInjective(Civil(DayNumber(date) + 1), NextDay(date));
  }

  /** For every millisecond timestamp: a valid date, a time of day, and together they are the minute that
      holds the timestamp; a day later it is the same time on the next calendar date. */
  lemma DatetimeRight(atMs: int)
    ensures var t := DatetimeUtc(atMs);
            && Valid(t.date) && 0 <= t.hour <= 23 && 0 <= t.minute <= 59
            && 0 <= atMs - ((DayNumber(t.date) * 24 + t.hour) * 60 + t.minute) * 60_000 < 60_000
            && DatetimeUtc(atMs + 86_400_000) == t.(date := NextDay(t.date))
  {
    var days := (atMs / 1000) / 86_400;
    CivilRight(days);
    CivilInverse(Civil(days));
    MinuteOfDay(atMs);
    DayLater(atMs);
  }

  lemma MinuteOfDay(atMs: int)
    ensures var secs := atMs / 1000; var h := (secs % 86_400) / 3600; var m := (secs % 86_400 % 3600) / 60;
            0 <= h <= 23 && 0 <= m <= 59 && 0 <= atMs - ((secs / 86_400 * 24 + h) * 60 + m) * 60_000 < 60_000
  {
  }

  lemma DayLater(atMs: int)
    ensures var secs := atMs / 1000; var later := (atMs + 86_400_000) / 1000;
            later / 86_400 == secs / 86_400 + 1 && later % 86_400 == secs % 86_400
  {
    assert (atMs + 86_400_000) / 1000 == atMs / 1000 + 86_400;
  }
}
