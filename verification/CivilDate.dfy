/** Civil dates (`sftp.rs`, `civil_from_days`) against the Gregorian calendar
itself: leap years, month lengths and the day after. */
module CivilDate {

  /** `month` is 0 for January. */
  datatype Date = Date(year: int, month: int, day: int)

  // ---- the calendar ----

  predicate IsLeap(year: int) { year % 4 == 0 && (year % 100 != 0 || year % 400 == 0) }

  function MonthLength(year: int, month: int): int {
    if month == 1 then (if IsLeap(year) then 29 else 28)
    else if month == 3 || month == 5 || month == 8 || month == 10 then 30
    else 31
  }

  predicate IsDate(d: Date) { 0 <= d.month < 12 && 1 <= d.day <= MonthLength(d.year, d.month) }

  function Tomorrow(d: Date): Date {
    if d.day < MonthLength(d.year, d.month) then d.(day := d.day + 1)
    else if d.month < 11 then Date(d.year, d.month + 1, 1)
    else Date(d.year + 1, 0, 1)
  }

  // ---- the source ----

  function YearOfEra(doe: int): int { (doe - doe / 1460 + doe / 36_524 - doe / 146_096) / 365 }

  /** Days before the March-based year `yoe` of an era. */
  function YearStart(yoe: int): int { 365 * yoe + yoe / 4 - yoe / 100 }

  /** The date of day `doy` of the March-based year `y`. */
  function InYear(y: int, doy: int): Date {
    var mp := (5 * doy + 2) / 153;
    var day := doy - (153 * mp + 2) / 5 + 1;
    var month := if mp < 10 then mp + 3 else mp - 9;
    Date(y + (if month <= 2 then 1 else 0), month - 1, day)
  }

  function CivilFromDays(days: int): Date {
    var z := days + 719_468;
    var era, doe := z / 146_097, z % 146_097;
    var yoe := YearOfEra(doe);
    InYear(yoe + era * 400, doe - YearStart(yoe))
  }

  // ---- the inverse ----

  /** Day of the March-based year. */
  function DayOfYear(month: int, day: int): int {
    (153 * (if month >= 2 then month - 2 else month + 10) + 2) / 5 + day - 1
  }

  function DaysFromCivil(d: Date): int {
    var y := if d.month < 2 then d.year - 1 else d.year;
    y / 400 * 146_097 + YearStart(y % 400) + DayOfYear(d.month, d.day) - 719_468
  }

  /** A March-based year has 366 days when the civil year of its February is a
      leap year. */
  lemma YearLength(yoe: int)
    requires 0 <= yoe < 399
    ensures YearStart(yoe + 1) - YearStart(yoe) == if IsLeap(yoe + 1) then 366 else 365
  {
    assert (yoe + 1) / 4 == yoe / 4 + (if (yoe + 1) % 4 == 0 then 1 else 0);
    assert (yoe + 1) / 100 == yoe / 100 + (if (yoe + 1) % 100 == 0 then 1 else 0);
    assert (yoe + 1) % 100 == 0 ==> (yoe + 1) % 4 == 0;
  }

  /** A day of an era by century, four-year cycle, year and day. */
  predicate Parts(c: int, q: int, r: int, doy: int) {
    && 0 <= c <= 3 && 0 <= q <= 24 && 0 <= r <= 3 && 0 <= doy <= 365
    && (doy == 365 ==> r == 3 && (q < 24 || c == 3))
  }

  function DayOfEra(c: int, q: int, r: int, doy: int): int { 36_524 * c + 1461 * q + 365 * r + doy }

  lemma PartsOfYear(c: int, q: int, r: int, doy: int)
    requires Parts(c, q, r, doy)
    ensures YearStart(100 * c + 4 * q + r) == 36_524 * c + 1461 * q + 365 * r
    ensures r == 3 && (q < 24 || c == 3) <==> IsLeap(100 * c + 4 * q + r + 1)
  {
    var y := 100 * c + 4 * q + r;
    assert y / 4 == 25 * c + q && y / 100 == c;
    assert (y + 1) % 4 == (r + 1) % 4 && (y + 1) % 100 == (4 * q + r + 1) % 100;
    assert (y + 1) % 400 == 0 <==> y == 399;
  }

  lemma EveryDayHasParts(doe: int) returns (c: int, q: int, r: int, doy: int)
    requires 0 <= doe < 146_097
    ensures Parts(c, q, r, doy) && doe == DayOfEra(c, q, r, doy)
  {
    c := if doe / 36_524 < 3 then doe / 36_524 else 3;
    var e := doe - 36_524 * c;
    q := e / 1461;
    var f := e % 1461;
    r := if f / 365 < 3 then f / 365 else 3;
    doy := f - 365 * r;
  }

  /** The source's year formula recovers the parts. */
  lemma Quadrennia(c: int, q: int, r: int, doy: int)
    requires Parts(c, q, r, doy)
    ensures DayOfEra(c, q, r, doy) / 1460 == 25 * c + q + (if 24 * c + q + 365 * r + doy >= 1460 then 1 else 0)
  {
    assert DayOfEra(c, q, r, doy) == 1460 * (25 * c + q) + (24 * c + q + 365 * r + doy);
  }

  lemma Centuries(c: int, q: int, r: int, doy: int)
    requires Parts(c, q, r, doy)
    ensures DayOfEra(c, q, r, doy) / 36_524 - DayOfEra(c, q, r, doy) / 146_096 == c
  {
  }

  lemma YearRecovered(c: int, q: int, r: int, doy: int)
    requires Parts(c, q, r, doy)
    ensures YearOfEra(DayOfEra(c, q, r, doy)) == 100 * c + 4 * q + r
    ensures 0 <= DayOfEra(c, q, r, doy) < 146_097
  {
    var doe := DayOfEra(c, q, r, doy);
    var x := if 24 * c + q + 365 * r + doy >= 1460 then 1 else 0;
    Quadrennia(c, q, r, doy);
    Centuries(c, q, r, doy);
    assert 0 <= doy - x < 365;
    assert doe - doe / 1460 + doe / 36_524 - doe / 146_096 == 365 * (100 * c + 4 * q + r) + (doy - x);
  }

  /** Within a March-based year, month and day determine the day number and
      back. */
  lemma MonthRecovered(month: int, day: int)
    requires 0 <= month < 12 && 1 <= day <= (if month == 1 then 29 else MonthLength(1, month))
    ensures var mp, doy := (if month >= 2 then month - 2 else month + 10), DayOfYear(month, day);
            && (5 * doy + 2) / 153 == mp && doy - (153 * mp + 2) / 5 + 1 == day
            && 0 <= doy <= 365 && (doy == 365 <==> month == 1 && day == 29)
  {
  }

  lemma DayHasMonth(doy: int)
    requires 0 <= doy <= 365
    ensures var mp := (5 * doy + 2) / 153;
            var month := if mp < 10 then mp + 2 else mp - 10;
            var day := doy - (153 * mp + 2) / 5 + 1;
            && 0 <= month < 12 && 1 <= day <= (if month == 1 then 29 else MonthLength(1, month))
            && DayOfYear(month, day) == doy
  {
    var mp := (5 * doy + 2) / 153;
    assert 0 <= mp <= 11;
  }

  lemma SplitYear(y: int) returns (c: int, q: int, r: int)
    ensures 0 <= c <= 3 && 0 <= q <= 24 && 0 <= r <= 3 && y % 400 == 100 * c + 4 * q + r
  {
    var yoe := y % 400;
    c, q, r := yoe / 100, yoe % 100 / 4, yoe % 4;
  }

  lemma LeapShift(m: int, k: int)
    ensures IsLeap(m + 400 * k) <==> IsLeap(m)
  {
    Remainder(m + 400 * k, 4, m / 4 + 100 * k, m % 4);
    Remainder(m + 400 * k, 100, m / 100 + 4 * k, m % 100);
    Remainder(m + 400 * k, 400, m / 400 + k, m % 400);
  }

  lemma Remainder(x: int, n: int, q: int, r: int)
    requires n in {4, 100, 400, 146_097} && x == n * q + r && 0 <= r < n
    ensures x / n == q && x % n == r
  {
  }

  lemma LeapInEra(y: int)
    ensures IsLeap(y + 1) <==> IsLeap(y % 400 + 1)
  {
    LeapShift(y % 400 + 1, y / 400);
    assert y % 400 + 1 + 400 * (y / 400) == y + 1;
  }

  lemma CivilAt(days: int, era: int, doe: int)
    requires 0 <= doe < 146_097 && days + 719_468 == 146_097 * era + doe
    ensures CivilFromDays(days) == InYear(YearOfEra(doe) + era * 400, doe - YearStart(YearOfEra(doe)))
  {
    hide YearOfEra, YearStart, InYear;
    Remainder(days + 719_468, 146_097, era, doe);
  }

  lemma DateInYear(d: Date)
    requires IsDate(d)
    ensures var y := if d.month < 2 then d.year - 1 else d.year;
            var doy := DayOfYear(d.month, d.day);
            0 <= doy <= 365 && InYear(y, doy) == d && (doy == 365 ==> IsLeap(y + 1))
  {
    MonthRecovered(d.month, d.day);
  }

  lemma YearInDate(y: int, doy: int)
    requires 0 <= doy <= 365 && (doy == 365 ==> IsLeap(y + 1))
    ensures var d := InYear(y, doy);
            && IsDate(d) && y == (if d.month < 2 then d.year - 1 else d.year) && DayOfYear(d.month, d.day) == doy
  {
    DayHasMonth(doy);
    var d := InYear(y, doy);
    MonthRecovered(d.month, d.day);
  }

  lemma PartsInYear(era: int, c: int, q: int, r: int, doy: int)
    requires Parts(c, q, r, doy)
    ensures var y := 100 * c + 4 * q + r + era * 400;
            && CivilFromDays(146_097 * era + DayOfEra(c, q, r, doy) - 719_468) == InYear(y, doy)
            && y / 400 == era && YearStart(y % 400) + doy == DayOfEra(c, q, r, doy)
  {
    hide IsLeap, YearStart, YearOfEra, InYear, CivilFromDays, DayOfEra;
    var yoe, doe := 100 * c + 4 * q + r, DayOfEra(c, q, r, doy);
    YearParts(c, q, r, doy);
    YearRecovered(c, q, r, doy);
    CivilAt(146_097 * era + doe - 719_468, era, doe);
    Remainder(yoe + era * 400, 400, era, yoe);
  }

  lemma YearParts(c: int, q: int, r: int, doy: int)
    requires Parts(c, q, r, doy)
    ensures YearStart(100 * c + 4 * q + r) + doy == DayOfEra(c, q, r, doy) && 0 <= 100 * c + 4 * q + r < 400
  {
    PartsOfYear(c, q, r, doy);
  }

  lemma PartsLeap(era: int, c: int, q: int, r: int, doy: int)
    requires Parts(c, q, r, doy)
    ensures doy == 365 ==> IsLeap(100 * c + 4 * q + r + era * 400 + 1)
  {
    PartsOfYear(c, q, r, doy);
    LeapShift(100 * c + 4 * q + r + 1, era);
  }

  /** Every day number has a calendar date, and it is that date's number. */
  lemma DaysOfCivil(days: int)
    ensures IsDate(CivilFromDays(days)) && DaysFromCivil(CivilFromDays(days)) == days
  {
    hide IsLeap, YearStart, YearOfEra, InYear, DayOfYear, IsDate, CivilFromDays, DayOfEra, Parts;
    var z := days + 719_468;
    var c, q, r, doy := EveryDayHasParts(z % 146_097);
    PartsInYear(z / 146_097, c, q, r, doy);
    PartsLeap(z / 146_097, c, q, r, doy);
    PartsRange(c, q, r, doy);
    YearInDate(100 * c + 4 * q + r + z / 146_097 * 400, doy);
  }

  lemma PartsRange(c: int, q: int, r: int, doy: int)
    requires Parts(c, q, r, doy)
    ensures 0 <= doy <= 365
  {
  }

  lemma YearHasParts(y: int, doy: int) returns (c: int, q: int, r: int)
    requires 0 <= doy <= 365 && (doy == 365 ==> IsLeap(y + 1))
    ensures Parts(c, q, r, doy) && y % 400 == 100 * c + 4 * q + r
  {
    c, q, r := SplitYear(y);
    LeapInEra(y);
    PartsOfYear(c, q, r, 0);
  }

  /** Every calendar date is the civil date of its day number. */
  lemma CivilOfDays(d: Date)
    requires IsDate(d)
    ensures CivilFromDays(DaysFromCivil(d)) == d
  {
    hide IsLeap, YearStart, YearOfEra, InYear, DayOfYear, IsDate, CivilFromDays, DayOfEra, Parts;
    var y := if d.month < 2 then d.year - 1 else d.year;
    var doy := DayOfYear(d.month, d.day);
    DateInYear(d);
    var c, q, r := YearHasParts(y, doy);
    assert y == 100 * c + 4 * q + r + y / 400 * 400;
    PartsInYear(y / 400, c, q, r, doy);
  }

  lemma TomorrowCounts(d: Date)
    requires IsDate(d)
    ensures IsDate(Tomorrow(d)) && DaysFromCivil(Tomorrow(d)) == DaysFromCivil(d) + 1
  {
    if d.day < MonthLength(d.year, d.month) {
      hide IsLeap, YearStart;
    } else if d.month == 1 {
      NewMarch(d.year);
    } else {
      NewMonth(d);
    }
  }

  /** The first of a month follows the last of the one before. */
  lemma NewMonth(d: Date)
    requires 0 <= d.month < 12 && d.month != 1 && d.day == MonthLength(d.year, d.month)
    ensures IsDate(Tomorrow(d)) && DaysFromCivil(Tomorrow(d)) == DaysFromCivil(d) + 1
  {
    hide YearStart;
  }

  /** 1 March follows the last of February. */
  lemma NewMarch(year: int)
    ensures DaysFromCivil(Date(year, 2, 1)) == DaysFromCivil(Date(year, 1, MonthLength(year, 1))) + 1
  {
    LeapInEra(year - 1);
    var yoe := (year - 1) % 400;
    if yoe < 399 {
      YearLength(yoe);
      assert year / 400 == (year - 1) / 400 && year % 400 == yoe + 1;
    } else {
      assert year / 400 == (year - 1) / 400 + 1 && year % 400 == 0;
    }
  }

  lemma DayZero()
    ensures CivilFromDays(0) == Date(1970, 0, 1)
  {
    assert YearOfEra(719_468 % 146_097) == 369;
  }

  /** Day 0 is 1 January 1970, and each next day is the next date: the function
      is the calendar. */
  lemma CivilIsTheCalendar(days: int)
    ensures CivilFromDays(0) == Date(1970, 0, 1)
    ensures CivilFromDays(days + 1) == Tomorrow(CivilFromDays(days))
  {
    hide CivilFromDays, DaysFromCivil, Tomorrow, IsDate;
    DayZero();
    DaysOfCivil(days);
    var d := CivilFromDays(days);
    TomorrowCounts(d);
    CivilOfDays(Tomorrow(d));
  }
}
