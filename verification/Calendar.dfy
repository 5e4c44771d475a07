// The closed-form calendar (src/util.rs:267-289), against the Gregorian rules of Appendix C of RFC 3339.
module Calendar {
  datatype Date = Date(year: int, month: int, day: int)

  // ------------------------------------------------------------ the rules

  predicate Leap(year: int) {
    year % 4 == 0 && (year % 100 != 0 || year % 400 == 0)
  }

  function DaysIn(year: int, month: int): int {
    if month == 2 then (if Leap(year) then 29 else 28)
    else if month == 4 || month == 6 || month == 9 || month == 11 then 30
    else 31
  }

  predicate Valid(d: Date) {
    1 <= d.month <= 12 && 1 <= d.day <= DaysIn(d.year, d.month)
  }

  function NextDay(d: Date): Date {
    if d.day < DaysIn(d.year, d.month) then d.(day := d.day + 1)
    else if d.month < 12 then Date(d.year, d.month + 1, 1)
    else Date(d.year + 1, 1, 1)
  }

  predicate Before(a: Date, b: Date) {
    a.year < b.year || (a.year == b.year && (a.month < b.month || (a.month == b.month && a.day < b.day)))
  }

  // -------------------------------------------------------------- the code

  /// Division as the machine does it: towards zero.
  function Quotient(a: int, b: int): int
    requires b > 0
  {
    if a >= 0 then a / b else -(-a / b)
  }

  function YearOfEra(dayOfEra: int): int {
    (dayOfEra - dayOfEra / 1460 + dayOfEra / 36_524 - dayOfEra / 146_096) / 365
  }

  function CivilFromDays(days: int): Date {
    var shifted := days + 719_468;
    var era := Quotient(if shifted >= 0 then shifted else shifted - 146_096, 146_097);
    var dayOfEra := shifted - era * 146_097;
    var yearOfEra := YearOfEra(dayOfEra);
    var year := yearOfEra + era * 400;
    var dayOfYear := dayOfEra - (365 * yearOfEra + yearOfEra / 4 - yearOfEra / 100);
    DateOf(year, dayOfYear)
  }

  /// The date of a day of a year counted from March.
  function DateOf(year: int, dayOfYear: int): Date {
    var shiftedMonth := (5 * dayOfYear + 2) / 153;
    var day := dayOfYear - (153 * shiftedMonth + 2) / 5 + 1;
    var month := if shiftedMonth < 10 then shiftedMonth + 3 else shiftedMonth - 9;
    Date(if month <= 2 then year + 1 else year, month, day)
  }

  /// The year a date belongs to when years start in March, and its day there.
  function MarchYear(d: Date): int {
    if d.month <= 2 then d.year - 1 else d.year
  }

  function DayOfMarchYear(d: Date): int {
    (153 * (if d.month <= 2 then d.month + 9 else d.month - 3) + 2) / 5 + d.day - 1
  }

  /// The inverse: days from 1970-01-01, counting years from March.
  function DaysFromCivil(d: Date): int {
    YearStart(MarchYear(d)) + DayOfMarchYear(d) - 719_468
  }

  /// Days before March of a year, from March of year 0.
  function YearStart(year: int): int {
    365 * year + year / 4 - year / 100 + year / 400
  }

  // ---------------------------------------------------------------- proofs

  /// Centuries, four-year groups, years and days of one 400-year era.
  lemma Decompose(dayOfEra: int) returns (c: int, q: int, r: int, d: int)
    requires 0 <= dayOfEra < 146_097
    ensures 0 <= c <= 3 && 0 <= q <= 24 && 0 <= r <= 3 && 0 <= d <= 365
    ensures dayOfEra == 36_524 * c + 1461 * q + 365 * r + d
    ensures d == 365 ==> r == 3 && (q < 24 || c == 3)
  {
    c := if dayOfEra == 146_096 then 3 else dayOfEra / 36_524;
    var rest := dayOfEra - 36_524 * c;
    q := rest / 1461;
    var left := rest - 1461 * q;
    r := if left == 1460 then 3 else left / 365;
    d := left - 365 * r;
  }

  predicate Decomposes(c: int, q: int, r: int, d: int) {
    0 <= c <= 3 && 0 <= q <= 24 && 0 <= r <= 3 && 0 <= d <= 365 && (d == 365 ==> r == 3 && (q < 24 || c == 3))
  }

  /// Leap days met before day n, one of them perhaps today.
  lemma LeapDays(c: int, q: int, r: int, d: int) returns (e: int)
    requires Decomposes(c, q, r, d)
    ensures (36_524 * c + 1461 * q + 365 * r + d) / 1460 == 25 * c + q + e && 0 <= d - e < 365
  {
    var m := 24 * c + q + 365 * r + d;
    e := if m >= 1460 then 1 else 0;
    assert 36_524 * c + 1461 * q + 365 * r + d == 1460 * (25 * c + q + e) + (m - 1460 * e);
  }

  lemma Centuries(c: int, w: int)
    requires 0 <= c <= 3 && 0 <= w <= 36_524 && (w == 36_524 ==> c == 3)
    ensures (36_524 * c + w) / 36_524 - (36_524 * c + w) / 146_096 == c
  {
  }

  lemma YearOfEraIs(c: int, q: int, r: int, d: int)
    requires Decomposes(c, q, r, d)
    ensures YearOfEra(36_524 * c + 1461 * q + 365 * r + d) == 100 * c + 4 * q + r
  {
    var e := LeapDays(c, q, r, d);
    Centuries(c, 1461 * q + 365 * r + d);
    WholeYears(100 * c + 4 * q + r, d - e);
  }

  lemma WholeYears(years: int, rest: int)
    requires 0 <= rest < 365
    ensures (365 * years + rest) / 365 == years
  {
  }

  lemma EraOf(days: int)
    ensures
      var shifted := days + 719_468;
      Quotient(if shifted >= 0 then shifted else shifted - 146_096, 146_097) == shifted / 146_097
  {
  }

  lemma LongYearsAreLeap(c: int, q: int)
    requires 0 <= c <= 3 && 0 <= q <= 24 && (q < 24 || c == 3)
    ensures Leap(100 * c + 4 * q + 4)
  {
    if q == 24 {
      assert 100 * c + 4 * q + 4 == 400;
    } else {
      assert (100 * c + 4 * q + 4) / 100 == c;
    }
  }

  /// The year of the era and the day of its March-based year.
  lemma YearAndDay(dayOfEra: int)
    requires 0 <= dayOfEra < 146_097
    ensures
      var y := YearOfEra(dayOfEra);
      var d := DayInEra(dayOfEra);
      0 <= y <= 399 && 0 <= d <= 365 && (d == 365 ==> Leap(y + 1))
  {
    var c, q, r, d := Decompose(dayOfEra);
    YearOfEraIs(c, q, r, d);
    YearsBefore(c, q, r);
    if d == 365 {
      LongYearsAreLeap(c, q);
    }
  }

  lemma YearsBefore(c: int, q: int, r: int)
    requires 0 <= c <= 3 && 0 <= q <= 24 && 0 <= r <= 3
    ensures var y := 100 * c + 4 * q + r; y / 4 == 25 * c + q && y / 100 == c
  {
  }

  /// One March-based year: the month and day formulas give a date of the right length and invert each other.
  lemma MonthAndDay(dayOfYear: int)
    requires 0 <= dayOfYear <= 365
    ensures
      var m := (5 * dayOfYear + 2) / 153;
      var day := dayOfYear - (153 * m + 2) / 5 + 1;
      && 0 <= m <= 11 && 1 <= day
      && (m == 1 || m == 3 || m == 6 || m == 8 ==> day <= 30)
      && (m == 11 ==> day <= 29 && (day == 29 ==> dayOfYear == 365))
      && day <= 31
  {
  }

  lemma RestByEra(year: int, era: int)
    ensures (year + era * 400) % 4 == year % 4
    ensures (year + era * 400) % 100 == year % 100
    ensures (year + era * 400) % 400 == year % 400
  {
    assert (year + era * 400) / 4 == year / 4 + era * 100;
    assert (year + era * 400) / 100 == year / 100 + era * 4;
    assert (year + era * 400) / 400 == year / 400 + era;
  }

  lemma LeapByEra(year: int, era: int)
    ensures Leap(year + era * 400) <==> Leap(year)
  {
    RestByEra(year, era);
  }

  lemma YearStartByEra(year: int, era: int)
    ensures YearStart(year + era * 400) == YearStart(year) + era * 146_097
  {
    assert (year + era * 400) / 400 == year / 400 + era;
    assert (year + era * 400) / 100 == year / 100 + era * 4;
    assert (year + era * 400) / 4 == year / 4 + era * 100;
  }

  lemma DateIsExact(year: int, dayOfYear: int)
    requires 0 <= dayOfYear <= 365 && (dayOfYear == 365 ==> Leap(year + 1))
    ensures Valid(DateOf(year, dayOfYear))
    ensures DaysFromCivil(DateOf(year, dayOfYear)) == YearStart(year) + dayOfYear - 719_468
  {
    MonthAndDay(dayOfYear);
  }

  lemma CivilIsADate(days: int) returns (year: int, dayOfYear: int)
    ensures CivilFromDays(days) == DateOf(year, dayOfYear) && YearStart(year) + dayOfYear == days + 719_468
    ensures 0 <= dayOfYear <= 365 && (dayOfYear == 365 ==> Leap(year + 1))
  {
    var era := (days + 719_468) / 146_097;
    CivilInEra(days, era);
    year, dayOfYear := DateInEra(days + 719_468 - era * 146_097, era);
  }

  lemma DateInEra(dayOfEra: int, era: int) returns (year: int, dayOfYear: int)
    requires 0 <= dayOfEra < 146_097
    ensures year == YearOfEra(dayOfEra) + era * 400 && dayOfYear == DayInEra(dayOfEra)
    ensures YearStart(year) + dayOfYear == dayOfEra + era * 146_097
    ensures 0 <= dayOfYear <= 365 && (dayOfYear == 365 ==> Leap(year + 1))
  {
    YearAndDay(dayOfEra);
    year, dayOfYear := YearOfEra(dayOfEra) + era * 400, DayInEra(dayOfEra);
    YearInEra(YearOfEra(dayOfEra), era, dayOfYear);
  }

  function DayInEra(dayOfEra: int): int {
    var y := YearOfEra(dayOfEra);
    dayOfEra - (365 * y + y / 4 - y / 100)
  }

  lemma CivilInEra(days: int, era: int)
    requires era == (days + 719_468) / 146_097
    ensures
      var dayOfEra := days + 719_468 - era * 146_097;
      0 <= dayOfEra < 146_097
      && CivilFromDays(days) == DateOf(YearOfEra(dayOfEra) + era * 400, DayInEra(dayOfEra))
  {
    EraOf(days);
  }

  lemma YearInEra(y: int, era: int, dayOfYear: int)
    requires 0 <= y <= 399 && (dayOfYear == 365 ==> Leap(y + 1))
    ensures YearStart(y + era * 400) == 365 * y + y / 4 - y / 100 + era * 146_097
    ensures dayOfYear == 365 ==> Leap(y + era * 400 + 1)
  {
    LeapByEra(y + 1, era);
    YearStartByEra(y, era);
  }

  /// For every day count, past or future, the result is a real Gregorian date, and the inverse gives the count back.
  lemma CivilIsExact(days: int)
    ensures Valid(CivilFromDays(days)) && DaysFromCivil(CivilFromDays(days)) == days
  {
    var year, dayOfYear := CivilIsADate(days);
    DateIsExact(year, dayOfYear);
  }

  lemma YearStartGrows(year: int)
    ensures YearStart(year + 1) == YearStart(year) + (if Leap(year + 1) then 366 else 365)
  {
    var next := year + 1;
    assert next / 4 == year / 4 + if next % 4 == 0 then 1 else 0;
    assert next / 100 == year / 100 + if next % 100 == 0 then 1 else 0;
    assert next / 400 == year / 400 + if next % 400 == 0 then 1 else 0;
    assert next % 400 == 0 ==> next % 100 == 0;
    assert next % 100 == 0 ==> next % 4 == 0;
  }

  lemma YearsApart(a: int, b: int)
    requires a < b
    ensures YearStart(a + 1) <= YearStart(b)
  {
  }

  lemma DayOfMarchYearBounds(d: Date)
    requires Valid(d)
    ensures 0 <= DayOfMarchYear(d) <= if Leap(MarchYear(d) + 1) then 365 else 364
  {
  }

  lemma LaterInTheYear(a: Date, b: Date)
    requires Valid(a) && Valid(b) && Before(a, b) && MarchYear(a) == MarchYear(b)
    ensures DayOfMarchYear(a) < DayOfMarchYear(b)
  {
  }

  /// Later dates have larger day counts.
  lemma LaterIsMore(a: Date, b: Date)
    requires Valid(a) && Valid(b) && Before(a, b)
    ensures DaysFromCivil(a) < DaysFromCivil(b)
  {
    if MarchYear(a) == MarchYear(b) {
      LaterInTheYear(a, b);
    } else {
      assert MarchYear(a) < MarchYear(b);
      YearStartGrows(MarchYear(a));
      YearsApart(MarchYear(a), MarchYear(b));
      DayOfMarchYearBounds(a);
      DayOfMarchYearBounds(b);
    }
  }

  lemma MoreIsLater(a: Date, b: Date)
    requires Valid(a) && Valid(b) && DaysFromCivil(a) < DaysFromCivil(b)
    ensures Before(a, b)
  {
    if Before(b, a) {
      LaterIsMore(b, a);
    }
  }

  /// The conversion is strictly monotone: a later day is a later date.
  lemma CivilIsMonotone(a: int, b: int)
    requires a < b
    ensures Before(CivilFromDays(a), CivilFromDays(b))
  {
    CivilIsExact(a);
    CivilIsExact(b);
    MoreIsLater(CivilFromDays(a), CivilFromDays(b));
  }

  lemma NextDayIsOneMore(d: Date)
    requires Valid(d)
    ensures Valid(NextDay(d)) && DaysFromCivil(NextDay(d)) == DaysFromCivil(d) + 1
  {
    if d.day == DaysIn(d.year, d.month) {
      MonthsMeet(d);
    }
  }

  lemma MonthsMeet(d: Date)
    requires Valid(d) && d.day == DaysIn(d.year, d.month)
    ensures DaysFromCivil(NextDay(d)) == DaysFromCivil(d) + 1
  {
    if d.month == 2 {
      YearStartGrows(d.year - 1);
    } else {
      assert MarchYear(NextDay(d)) == MarchYear(d);
      assert DayOfMarchYear(NextDay(d)) == DayOfMarchYear(d) + 1;
    }
  }

  lemma SameCount(a: Date, b: Date)
    requires Valid(a) && Valid(b) && DaysFromCivil(a) == DaysFromCivil(b)
    ensures a == b
  {
    if Before(a, b) {
      LaterIsMore(a, b);
    } else if Before(b, a) {
      LaterIsMore(b, a);
    }
  }

  lemma EpochIsDayZero()
    ensures CivilFromDays(0) == Date(1970, 1, 1)
  {
    assert YearOfEra(135_080) == 369;
    assert DateOf(1969, 306) == Date(1970, 1, 1);
  }

  /// The whole calendar from its rules: day 0 is the first of January 1970, and each day is the one after the last.
  lemma CivilFollowsTheCalendar(days: int)
    ensures CivilFromDays(days + 1) == NextDay(CivilFromDays(days)) && CivilFromDays(0) == Date(1970, 1, 1)
  {
    EpochIsDayZero();
    CivilIsExact(days);
    CivilIsExact(days + 1);
    NextDayIsOneMore(CivilFromDays(days));
    SameCount(CivilFromDays(days + 1), NextDay(CivilFromDays(days)));
  }
}
