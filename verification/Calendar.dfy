/** Time values and UTC calendar dates, as defined in section 21.4.1 of ECMA-262. */
module Calendar {
  const MS_PER_DAY := 86_400_000
  const MS_PER_HOUR := 3_600_000
  const MS_PER_MINUTE := 60_000

  predicate IsLeap(y: int) {
    y % 4 == 0 && (y % 100 != 0 || y % 400 == 0)
  }

  function DaysInYear(y: int): nat {
    if IsLeap(y) then 366 else 365
  }

  function LeapDay(y: int): nat {
    if IsLeap(y) then 1 else 0
  }

  /** The day number of 1 January, 1970 being 0. */
  function DayFromYear(y: int): int {
    365 * (y - 1970) + (y - 1969) / 4 - (y - 1901) / 100 + (y - 1601) / 400
  }

  /** Days of the year before a month, which is counted from 1; month 13 stands for the end of the year. */
  function DaysBeforeMonth(y: int, m: int): int
    requires 1 <= m <= 13
  {
    if m == 1 then 0
    else if m == 2 then 31
    else LeapDay(y)
         + (if m == 3 then 59 else if m == 4 then 90 else if m == 5 then 120 else if m == 6 then 151
            else if m == 7 then 181 else if m == 8 then 212 else if m == 9 then 243 else if m == 10 then 273
            else if m == 11 then 304 else if m == 12 then 334 else 365)
  }

  function DaysInMonth(y: int, m: int): int
    requires 1 <= m <= 12
  {
    DaysBeforeMonth(y, m + 1) - DaysBeforeMonth(y, m)
  }

  datatype Date = Date(year: int, month: int, day: int)

  predicate RealDate(d: Date) {
    1 <= d.month <= 12 && 1 <= d.day <= DaysInMonth(d.year, d.month)
  }

  /** MakeDay: a day beyond the end of its month runs over into the next ones. */
  function MakeDay(d: Date): int
    requires 1 <= d.month <= 12
  {
    DayFromYear(d.year) + DaysBeforeMonth(d.year, d.month) + d.day - 1
  }

  lemma Fourths(y: int)
    ensures (y + 1 - 1969) / 4 == (y - 1969) / 4 + if y % 4 == 0 then 1 else 0
  {
  }

  lemma Centuries(y: int)
    ensures (y + 1 - 1901) / 100 == (y - 1901) / 100 + if y % 100 == 0 then 1 else 0
  {
  }

  lemma FourCenturies(y: int)
    ensures (y + 1 - 1601) / 400 == (y - 1601) / 400 + if y % 400 == 0 then 1 else 0
  {
  }

  lemma LeapRules(y: int)
    ensures y % 400 == 0 ==> y % 100 == 0
    ensures y % 100 == 0 ==> y % 4 == 0
  {
  }

  lemma YearLength(y: int)
    ensures DayFromYear(y + 1) == DayFromYear(y) + DaysInYear(y)
  {
    Fourths(y);
    Centuries(y);
    FourCenturies(y);
    LeapRules(y);
    YearSum(y, (y - 1969) / 4, (y - 1901) / 100, (y - 1601) / 400);
  }

  lemma YearSum(y: int, fourths: int, centuries: int, fours: int)
    requires y % 400 == 0 ==> y % 100 == 0
    requires y % 100 == 0 ==> y % 4 == 0
    ensures 365 * (y + 1 - 1970) + (fourths + if y % 4 == 0 then 1 else 0) - (centuries + if y % 100 == 0 then 1 else 0)
            + (fours + if y % 400 == 0 then 1 else 0)
            == 365 * (y - 1970) + fourths - centuries + fours + DaysInYear(y)
  {
  }

  lemma {:induction false} YearsGrow(y: int, z: int)
    requires y <= z
    ensures DayFromYear(y) + 365 * (z - y) <= DayFromYear(z)
    decreases z - y
  {
    if y < z {
      YearsGrow(y, z - 1);
      YearLength(z - 1);
    }
  }

  /** YearFromTime: the year that contains a day. */
  function YearOf(n: int): (y: int)
    ensures DayFromYear(y) <= n < DayFromYear(y + 1)
  {
    YearsGrow(if n < 0 then n / 365 + 1969 else 1970, 1970);
    YearFrom(n, if n < 0 then n / 365 + 1969 else 1970)
  }

  function YearFrom(n: int, y: int): (z: int)
    requires DayFromYear(y) <= n
    ensures DayFromYear(z) <= n < DayFromYear(z + 1)
    decreases n - DayFromYear(y)
  {
    YearLength(y);
    if DayFromYear(y + 1) <= n then YearFrom(n, y + 1) else y
  }

  /** MonthFromTime: the month that contains a day of a year, counted from 0. */
  function MonthOf(y: int, k: int): (m: int)
    requires 0 <= k < DaysInYear(y)
    ensures 1 <= m <= 12 && DaysBeforeMonth(y, m) <= k < DaysBeforeMonth(y, m + 1)
  {
    var leap := LeapDay(y);
    if k < 31 then 1 else if k < 59 + leap then 2 else if k < 90 + leap then 3 else if k < 120 + leap then 4
    else if k < 151 + leap then 5 else if k < 181 + leap then 6 else if k < 212 + leap then 7 else if k < 243 + leap then 8
    else if k < 273 + leap then 9 else if k < 304 + leap then 10 else if k < 334 + leap then 11 else 12
  }

  function DateOf(n: int): Date {
    var y := YearOf(n);
    YearLength(y);
    var m := MonthOf(y, n - DayFromYear(y));
    Date(y, m, n - DayFromYear(y) - DaysBeforeMonth(y, m) + 1)
  }

  lemma MonthsGrow(y: int, m: int, n: int)
    requires 1 <= m <= n <= 13
    ensures DaysBeforeMonth(y, m) <= DaysBeforeMonth(y, n)
  {
  }

  lemma SameYear(n: int, y: int)
    requires DayFromYear(y) <= n < DayFromYear(y + 1)
    ensures YearOf(n) == y
  {
    hide DayFromYear;
    var z := YearOf(n);
    if z < y {
      YearsGrow(z + 1, y);
    } else if y < z {
      YearsGrow(y + 1, z);
    }
  }

  /** Every day number is the number of its own date, which is a real one. */
  lemma DayOfItsDate(n: int)
    ensures RealDate(DateOf(n)) && MakeDay(DateOf(n)) == n
  {
  }

  lemma WholeYear(y: int)
    ensures DaysBeforeMonth(y, 1) == 0 && DaysBeforeMonth(y, 13) == DaysInYear(y)
  {
  }

  /** Every real date is the date of its own day number. */
  lemma DateOfItsDay(d: Date)
    requires RealDate(d)
    ensures DateOf(MakeDay(d)) == d
  {
    hide DayFromYear, DaysBeforeMonth, IsLeap;
    var k := DaysBeforeMonth(d.year, d.month) + d.day - 1;
    WholeYear(d.year);
    MonthsGrow(d.year, 1, d.month);
    MonthsGrow(d.year, d.month + 1, 13);
    YearLength(d.year);
    SameYear(MakeDay(d), d.year);
    var m := MonthOf(d.year, k);
    if m < d.month {
      MonthsGrow(d.year, m + 1, d.month);
    } else if d.month < m {
      MonthsGrow(d.year, d.month + 1, m);
    }
  }

  /** So reading a date back gives it unchanged exactly if it is real. */
  lemma ReadsBackExactly(d: Date)
    requires 1 <= d.month <= 12
    ensures DateOf(MakeDay(d)) == d <==> RealDate(d)
  {
    DayOfItsDate(MakeDay(d));
    if RealDate(d) {
      DateOfItsDay(d);
    }
  }

  /** The date and the time of day of a time value. */
  datatype Clock = Clock(date: Date, hour: int, minute: int, second: int, ms: int)

  predicate OnTheClock(c: Clock) {
    0 <= c.hour < 24 && 0 <= c.minute < 60 && 0 <= c.second < 60 && 0 <= c.ms < 1000
  }

  function MakeTime(c: Clock): int
    requires 1 <= c.date.month <= 12
  {
    TimeFrom(MakeDay(c.date), c.hour, c.minute, c.second, c.ms)
  }

  function ClockOf(t: int): Clock {
    Clock(DateOf(t / MS_PER_DAY), t / MS_PER_HOUR % 24, t / MS_PER_MINUTE % 60, t / 1000 % 60, t % 1000)
  }

  lemma SecondsOf(q: int, r: int)
    requires 0 <= r < 1000
    ensures (q * 1000 + r) / 1000 == q && (q * 1000 + r) % 1000 == r
  {
  }

  lemma MinutesOf(q: int, r: int)
    requires 0 <= r < MS_PER_MINUTE
    ensures (q * MS_PER_MINUTE + r) / MS_PER_MINUTE == q
  {
  }

  lemma HoursOf(q: int, r: int)
    requires 0 <= r < MS_PER_HOUR
    ensures (q * MS_PER_HOUR + r) / MS_PER_HOUR == q
  {
  }

  lemma DaysOf(q: int, r: int)
    requires 0 <= r < MS_PER_DAY
    ensures (q * MS_PER_DAY + r) / MS_PER_DAY == q
  {
  }

  lemma Sixties(q: int, r: int)
    requires 0 <= r < 60
    ensures (q * 60 + r) % 60 == r
  {
  }

  lemma TwentyFours(q: int, r: int)
    requires 0 <= r < 24
    ensures (q * 24 + r) % 24 == r
  {
  }

  function TimeFrom(n: int, h: int, m: int, s: int, ms: int): int {
    n * MS_PER_DAY + h * MS_PER_HOUR + m * MS_PER_MINUTE + s * 1000 + ms
  }

  lemma Regrouped(n: int, h: int, m: int, s: int, ms: int)
    ensures TimeFrom(n, h, m, s, ms) == (((n * 24 + h) * 60 + m) * 60 + s) * 1000 + ms
    ensures TimeFrom(n, h, m, s, ms) == ((n * 24 + h) * 60 + m) * MS_PER_MINUTE + (s * 1000 + ms)
    ensures TimeFrom(n, h, m, s, ms) == (n * 24 + h) * MS_PER_HOUR + (m * MS_PER_MINUTE + s * 1000 + ms)
    ensures TimeFrom(n, h, m, s, ms) == n * MS_PER_DAY + (h * MS_PER_HOUR + m * MS_PER_MINUTE + s * 1000 + ms)
  {
  }

  lemma TimeParts(n: int, h: int, m: int, s: int, ms: int)
    requires 0 <= h < 24 && 0 <= m < 60 && 0 <= s < 60 && 0 <= ms < 1000
    ensures var t := TimeFrom(n, h, m, s, ms);
            t / MS_PER_DAY == n && t / MS_PER_HOUR % 24 == h && t / MS_PER_MINUTE % 60 == m && t / 1000 % 60 == s && t % 1000 == ms
  {
    hide TimeFrom;
    Regrouped(n, h, m, s, ms);
    SecondsOf(((n * 24 + h) * 60 + m) * 60 + s, ms);
    MinutesOf((n * 24 + h) * 60 + m, s * 1000 + ms);
    HoursOf(n * 24 + h, m * MS_PER_MINUTE + s * 1000 + ms);
    DaysOf(n, h * MS_PER_HOUR + m * MS_PER_MINUTE + s * 1000 + ms);
    Sixties((n * 24 + h) * 60 + m, s);
    Sixties(n * 24 + h, m);
    TwentyFours(n, h);
  }

  lemma PartsOfTime(t: int)
    ensures t == (t / MS_PER_DAY) * MS_PER_DAY + (t / MS_PER_HOUR % 24) * MS_PER_HOUR
                 + (t / MS_PER_MINUTE % 60) * MS_PER_MINUTE + (t / 1000 % 60) * 1000 + t % 1000
  {
    var s := t / 1000;
    var m := t / MS_PER_MINUTE;
    var h := t / MS_PER_HOUR;
    assert m == s / 60 && h == m / 60 && t / MS_PER_DAY == h / 24;
  }

  /** A time of day on a date reads back unchanged exactly if the date is real. */
  lemma ClockReadsBackExactly(c: Clock)
    requires 1 <= c.date.month <= 12 && OnTheClock(c)
    ensures ClockOf(MakeTime(c)) == c <==> RealDate(c.date)
  {
    hide MakeDay, DateOf;
    TimeParts(MakeDay(c.date), c.hour, c.minute, c.second, c.ms);
    ReadsBackExactly(c.date);
  }

  lemma TimeOfItsClock(t: int)
    ensures RealDate(ClockOf(t).date) && OnTheClock(ClockOf(t)) && MakeTime(ClockOf(t)) == t
  {
    hide MakeDay, DateOf;
    DayOfItsDate(t / MS_PER_DAY);
    PartsOfTime(t);
  }

  // ---------- the calendar, day by day ----------

  function MonthLength(y: int, m: int): nat {
    if m == 2 then (if y % 4 == 0 && (y % 100 != 0 || y % 400 == 0) then 29 else 28)
    else if m in {4, 6, 9, 11} then 30
    else 31
  }

  function DayAfter(d: Date): Date {
    if d.day < MonthLength(d.year, d.month) then Date(d.year, d.month, d.day + 1)
    else if d.month < 12 then Date(d.year, d.month + 1, 1)
    else Date(d.year + 1, 1, 1)
  }

  /** Main result: the day numbers count the days of the Gregorian calendar from 1 January 1970 on, one by one, in both
      directions. */
  lemma CountsTheDays(d: Date)
    requires 1 <= d.month <= 12
    ensures DateOf(0) == Date(1970, 1, 1)
    ensures RealDate(d) <==> 1 <= d.day <= MonthLength(d.year, d.month)
    ensures RealDate(d) ==> RealDate(DayAfter(d)) && MakeDay(DayAfter(d)) == MakeDay(d) + 1 && DateOf(MakeDay(d) + 1) == DayAfter(d)
  {
    hide DayFromYear, DaysBeforeMonth, IsLeap, MonthLength, MakeDay, DayAfter, DateOf;
    FirstDay();
    MonthLengths(d.year, d.month);
    if RealDate(d) {
      NextDay(d);
      DateOfItsDay(DayAfter(d));
    }
  }

  lemma FirstDay()
    ensures DateOf(0) == Date(1970, 1, 1)
  {
    assert MakeDay(Date(1970, 1, 1)) == 0;
    hide DayFromYear, DateOf;
    DateOfItsDay(Date(1970, 1, 1));
  }

  lemma MonthLengths(y: int, m: int)
    requires 1 <= m <= 12
    ensures DaysInMonth(y, m) == MonthLength(y, m)
  {
  }

  lemma NextDay(d: Date)
    requires RealDate(d)
    ensures RealDate(DayAfter(d)) && MakeDay(DayAfter(d)) == MakeDay(d) + 1
  {
    MonthLengths(d.year, d.month);
    if d.day < MonthLength(d.year, d.month) {
    } else if d.month < 12 {
      MonthLengths(d.year, d.month + 1);
    } else {
      MonthLengths(d.year + 1, 1);
      YearLength(d.year);
      WholeYear(d.year);
    }
  }
}
