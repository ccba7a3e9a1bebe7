/**
 The civil date of a day number, as `format_timestamp` computes it (apps/piteka-web/src/lib.rs),
 against the calendar counted out year by year and month by month.
 */
module CivilDate {

  // ----- The calendar

  datatype Date = Date(year: int, month: int, day: int)

  /** Appendix C of RFC 3339. */
  predicate Leap(year: int) {
    year % 4 == 0 && (year % 100 != 0 || year % 400 == 0)
  }

  function YearLength(year: int): int { if Leap(year) then 366 else 365 }

  function MonthLength(year: int, month: int): int {
    if month == 2 then (if Leap(year) then 29 else 28)
    else if month == 4 || month == 6 || month == 9 || month == 11 then 30
    else 31
  }

  predicate IsDate(d: Date) {
    1 <= d.month <= 12 && 1 <= d.day <= MonthLength(d.year, d.month)
  }

  /** Days from the first of January 1970 to the first of January of the year. */
  function DaysBeforeYear(year: int): int
    decreases year
  {
    if year <= 1970 then 0 else DaysBeforeYear(year - 1) + YearLength(year - 1)
  }

  function DaysBeforeMonth(year: int, month: int): int
    decreases month
  {
    if month <= 1 then 0 else DaysBeforeMonth(year, month - 1) + MonthLength(year, month - 1)
  }

  /** Counting back: days from the first of January 1970 to the date. */
  function DayNumber(d: Date): int {
    DaysBeforeYear(d.year) + DaysBeforeMonth(d.year, d.month) + d.day - 1
  }

  // ----- Dates count forward

  lemma {:induction false} DaysBeforeYearMonotone(a: int, b: int)
    requires 1970 <= a < b
    ensures DaysBeforeYear(a) + YearLength(a) <= DaysBeforeYear(b)
    decreases b
  {
    if a < b - 1 {
      DaysBeforeYearMonotone(a, b - 1);
    }
  }

  lemma {:induction false} DaysBeforeMonthMonotone(year: int, a: int, b: int)
    requires 1 <= a < b <= 13
    ensures DaysBeforeMonth(year, a) + MonthLength(year, a) <= DaysBeforeMonth(year, b)
    decreases b
  {
    if a < b - 1 {
      DaysBeforeMonthMonotone(year, a, b - 1);
    }
  }

  // The month table from January, and the year's length from its months.
  lemma MonthTable(year: int)
    ensures var leap := if Leap(year) then 1 else 0;
      && DaysBeforeMonth(year, 1) == 0 && DaysBeforeMonth(year, 2) == 31
      && DaysBeforeMonth(year, 3) == 59 + leap && DaysBeforeMonth(year, 4) == 90 + leap
      && DaysBeforeMonth(year, 5) == 120 + leap && DaysBeforeMonth(year, 6) == 151 + leap
      && DaysBeforeMonth(year, 7) == 181 + leap && DaysBeforeMonth(year, 8) == 212 + leap
      && DaysBeforeMonth(year, 9) == 243 + leap && DaysBeforeMonth(year, 10) == 273 + leap
      && DaysBeforeMonth(year, 11) == 304 + leap && DaysBeforeMonth(year, 12) == 334 + leap
      && DaysBeforeMonth(year, 13) == YearLength(year)
  {
    assert DaysBeforeMonth(year, 3) == DaysBeforeMonth(year, 2) + MonthLength(year, 2);
    assert DaysBeforeMonth(year, 5) == DaysBeforeMonth(year, 4) + MonthLength(year, 4);
    assert DaysBeforeMonth(year, 7) == DaysBeforeMonth(year, 6) + MonthLength(year, 6);
    assert DaysBeforeMonth(year, 9) == DaysBeforeMonth(year, 8) + MonthLength(year, 8);
    assert DaysBeforeMonth(year, 11) == DaysBeforeMonth(year, 10) + MonthLength(year, 10);
    assert DaysBeforeMonth(year, 13) == DaysBeforeMonth(year, 12) + MonthLength(year, 12);
  }

  predicate DateBefore(a: Date, b: Date) {
    a.year < b.year || (a.year == b.year && (a.month < b.month || (a.month == b.month && a.day < b.day)))
  }

  /** A later date has a greater day number, so no two dates share one. */
  lemma DayNumberMonotone(a: Date, b: Date)
    requires IsDate(a) && IsDate(b) && 1970 <= a.year && 1970 <= b.year
    ensures DateBefore(a, b) <==> DayNumber(a) < DayNumber(b)
  {
    if DateBefore(a, b) {
      LaterIsGreater(a, b);
    } else if a != b {
      LaterIsGreater(b, a);
    }
  }

  lemma LaterIsGreater(a: Date, b: Date)
    requires IsDate(a) && IsDate(b) && 1970 <= a.year && DateBefore(a, b)
    ensures DayNumber(a) < DayNumber(b)
  {
    if a.year < b.year {
      DaysBeforeYearMonotone(a.year, b.year);
      DaysBeforeMonthMonotone(a.year, a.month, 13);
      MonthTable(a.year);
      if 1 < b.month {
        DaysBeforeMonthMonotone(b.year, 1, b.month);
      }
    } else if a.month < b.month {
      DaysBeforeMonthMonotone(a.year, a.month, b.month);
    }
  }

  // ----- The computation

  /** `i64`: every operation below is checked to stay inside it. */
  newtype I64 = x: int | -0x8000_0000_0000_0000 <= x < 0x8000_0000_0000_0000

  const MAX_SECONDS := 0x7FFF_FFFF_FFFF_FFFF

  function Era(z: I64): I64
    requires -1_000_000_000_000_000 <= z
  {
    (if z >= 0 then z else z - 146_096) / 146_097
  }

  /** The source's arithmetic; only the era is divided Euclidean, every other dividend is non-negative. */
  function CivilFromDays(days: I64): Date
    requires 0 <= days <= 106_751_991_167_300
  {
    var z := days + 719_468;
    var era := Era(z);
    var dayOfEra := z - era * 146_097;
    var yearOfEra := (dayOfEra - dayOfEra / 1_460 + dayOfEra / 36_524 - dayOfEra / 146_096) / 365;
    var year := yearOfEra + era * 400;
    var dayOfYear := dayOfEra - (365 * yearOfEra + yearOfEra / 4 - yearOfEra / 100);
    var monthPrime := (5 * dayOfYear + 2) / 153;
    var day := dayOfYear - (153 * monthPrime + 2) / 5 + 1;
    var month := monthPrime + (if monthPrime < 10 then 3 else -9);
    Date((year + (if month <= 2 then 1 else 0)) as int, month as int, day as int)
  }

  // ----- Its pieces

  /** Leap years up to and including the year. */
  function Leaps(year: int): int { year / 4 - year / 100 + year / 400 }

  lemma {:induction false} MultiplesAreApart(d: int, p: int)
    requires 0 < d
    ensures if p == 0 then d * p == 0 else if 0 < p then d <= d * p else d * p <= -d
    decreases if p < 0 then -p else p
  {
    if 0 < p {
      MultiplesAreApart(d, p - 1);
      assert d * p == d * (p - 1) + d;
    } else if p < 0 {
      MultiplesAreApart(d, p + 1);
      assert d * p == d * (p + 1) - d;
    }
  }

  lemma DivisionIsUnique(n: int, d: int, q: int, r: int)
    requires n == d * q + r && 0 <= r < d
    ensures n / d == q && n % d == r
  {
    assert d * (q - n / d) == n % d - r;
    MultiplesAreApart(d, q - n / d);
  }

  lemma QuotientStep(n: int, d: int)
    requires 1 < d
    ensures n / d - (n - 1) / d == if n % d == 0 then 1 else 0
  {
    if n % d == 0 {
      assert n - 1 == d * (n / d - 1) + (d - 1);
      DivisionIsUnique(n - 1, d, n / d - 1, d - 1);
    } else {
      DivisionIsUnique(n - 1, d, n / d, n % d - 1);
    }
  }

  // Every fourth century year, and every hundredth year of a cycle of four, is in the coarser count too.
  lemma LeapsStep(year: int)
    ensures Leaps(year) == Leaps(year - 1) + if Leap(year) then 1 else 0
  {
    QuotientStep(year, 4);
    QuotientStep(year, 100);
    QuotientStep(year, 400);
    MultipleOf(year, 4, 100);
    MultipleOf(year, 100, 400);
  }

  lemma MultipleOf(n: int, d: int, e: int)
    requires (d, e) == (4, 100) || (d, e) == (100, 400)
    ensures n % e == 0 ==> n % d == 0
  {
    if n % e == 0 {
      if d == 4 {
        DivisionIsUnique(n, 4, 25 * (n / 100), 0);
      } else {
        DivisionIsUnique(n, 100, 4 * (n / 400), 0);
      }
    }
  }

  lemma {:induction false} YearsInClosedForm(year: int)
    requires 1970 <= year
    ensures DaysBeforeYear(year) == 365 * (year - 1970) + Leaps(year - 1) - 477
    decreases year
  {
    if 1970 < year {
      YearsInClosedForm(year - 1);
      LeapsStep(year - 1);
    }
  }

  function YearOfEra(dayOfEra: int): int {
    (dayOfEra - dayOfEra / 1_460 + dayOfEra / 36_524 - dayOfEra / 146_096) / 365
  }

  /** Days of the era before the March of its year y. */
  function EraDays(y: int): int { 365 * y + y / 4 - y / 100 }

  /** A day of the era as century, four-year cycle, and day of the cycle. */
  lemma YearOfEraOfParts(c: int, q: int, s: int)
    requires 0 <= c <= 3 && 0 <= q <= 24 && 0 <= s <= 1_460 && (q == 24 ==> s <= 1_459)
    ensures var t := if s == 1_460 then 3 else s / 365;
      YearOfEra(36_524 * c + 1_461 * q + s) == 100 * c + 4 * q + t
  {
    var doe := 36_524 * c + 1_461 * q + s;
    var carry := if 24 * c + q + s >= 1_460 then 1 else 0;
    assert doe == 1_460 * (25 * c + q + carry) + (24 * c + q + s - 1_460 * carry);
    assert doe / 1_460 == 25 * c + q + carry;
    assert doe / 36_524 == c;
    assert doe / 146_096 == 0;
  }

  lemma EraDaysOfParts(c: int, q: int, t: int)
    requires 0 <= c <= 3 && 0 <= q <= 24 && 0 <= t <= 3
    ensures EraDays(100 * c + 4 * q + t) == 36_524 * c + 1_461 * q + 365 * t
  {
    assert (100 * c + 4 * q + t) / 4 == 25 * c + q;
    assert (100 * c + 4 * q + t) / 100 == c;
  }

  /** The division finds the year the day lies in; day 365 of a March year exists only before a leap year's March. */
  lemma YearOfEraIsRight(doe: int)
    requires 0 <= doe <= 146_096
    ensures var y := YearOfEra(doe);
      0 <= y <= 399 && 0 <= doe - EraDays(y) <= 365 && (doe - EraDays(y) == 365 ==> Leap(y + 1))
  {
    if doe == 146_096 {
      assert YearOfEra(doe) == 399;
    } else {
      var c := doe / 36_524;
      var r := doe - 36_524 * c;
      var q := r / 1_461;
      var s := r - 1_461 * q;
      PartsAreRight(c, q, s);
    }
  }

  lemma PartsAreRight(c: int, q: int, s: int)
    requires 0 <= c <= 3 && 0 <= q <= 24 && 0 <= s <= 1_460 && (q == 24 ==> s <= 1_459)
    ensures var doe := 36_524 * c + 1_461 * q + s;
      var y := YearOfEra(doe);
      0 <= y <= 399 && 0 <= doe - EraDays(y) <= 365 && (doe - EraDays(y) == 365 ==> Leap(y + 1))
  {
    hide YearOfEra, EraDays;
    YearOfEraOfParts(c, q, s);
    var t := if s == 1_460 then 3 else s / 365;
    EraDaysOfParts(c, q, t);
    if s == 1_460 {
      DivisionIsUnique(100 * c + 4 * q + 4, 4, 25 * c + q + 1, 0);
      DivisionIsUnique(100 * c + 4 * q + 4, 100, c, 4 * q + 4);
    }
  }

  /** The month formula on a year that starts in March. */
  lemma MonthIsRight(year: int, dayOfYear: int)
    requires 0 <= dayOfYear <= 365 && (dayOfYear == 365 ==> Leap(year + 1))
    ensures var mp := (5 * dayOfYear + 2) / 153;
      var month := mp + if mp < 10 then 3 else -9;
      var day := dayOfYear - (153 * mp + 2) / 5 + 1;
      var d := Date(if month <= 2 then year + 1 else year, month, day);
      && 0 <= mp <= 11 && IsDate(d)
      && dayOfYear == if month <= 2 then 306 + DaysBeforeMonth(year + 1, month) + day - 1
                      else DaysBeforeMonth(year, month) - DaysBeforeMonth(year, 3) + day - 1
  {
    MonthTable(year);
    MonthTable(year + 1);
    var mp := (5 * dayOfYear + 2) / 153;
    assert mp in {0, 1, 2, 3, 4, 5, 6, 7, 8, 9, 10, 11};
  }

  // The first of March of year 400 · era + y.
  lemma MarchNumber(era: int, y: int)
    requires 0 <= y <= 399 && 1969 <= 400 * era + y
    ensures Leaps(400 * era + y) == 97 * era + y / 4 - y / 100
    ensures DaysBeforeYear(400 * era + y + 1) - 306 == 146_097 * era + EraDays(y) - 719_468
    ensures 1970 <= 400 * era + y ==>
      DaysBeforeYear(400 * era + y) + DaysBeforeMonth(400 * era + y, 3) == 146_097 * era + EraDays(y) - 719_468
  {
    var year := 400 * era + y;
    assert year / 4 == 100 * era + y / 4 && year / 100 == 4 * era + y / 100 && year / 400 == era;
    YearsInClosedForm(year + 1);
    if 1970 <= year {
      YearsInClosedForm(year);
      LeapsStep(year);
      MonthTable(year);
    }
  }

  lemma LeapOfEra(era: int, y: int)
    ensures Leap(400 * era + y) <==> Leap(y)
  {
    DivisionIsUnique(400 * era + y, 4, 100 * era + y / 4, y % 4);
    DivisionIsUnique(400 * era + y, 100, 4 * era + y / 100, y % 100);
    DivisionIsUnique(400 * era + y, 400, era + y / 400, y % 400);
  }

  /** For every day from 1970 on: a date of the proleptic Gregorian calendar, and counting back returns the day. */
  lemma CivilIsRight(days: I64)
    requires 0 <= days <= 106_751_991_167_300
    ensures var d := CivilFromDays(days); IsDate(d) && 1970 <= d.year && DayNumber(d) == days as int
  {
    hide CivilFromDays, Leap, EraDays, YearOfEra, DaysBeforeYear, DaysBeforeMonth, MonthLength;
    var z := days as int + 719_468;
    var era := z / 146_097;
    var doe := z - era * 146_097;
    YearOfEraIsRight(doe);
    var y := YearOfEra(doe);
    var doy := doe - EraDays(y);
    LeapOfEra(era, y + 1);
    NotBefore1969(z, era, y, doy);
    CivilOfParts(days, era, y, doy);
    MonthIsRight(400 * era + y, doy);
    MarchNumber(era, y);
  }

  lemma NotBefore1969(z: int, era: int, y: int, doy: int)
    requires 719_468 <= z == era * 146_097 + EraDays(y) + doy && 0 <= y <= 399 && 0 <= doy <= 365
    ensures 1969 <= 400 * era + y
    ensures 400 * era + y == 1969 ==> 306 <= doy
  {
  }

  // The date in terms of the parts named above.
  lemma CivilOfParts(days: I64, era: int, y: int, doy: int)
    requires 0 <= days <= 106_751_991_167_300
    requires era == (days as int + 719_468) / 146_097 && y == YearOfEra(days as int + 719_468 - era * 146_097)
    requires doy == days as int + 719_468 - era * 146_097 - EraDays(y)
    ensures var mp := (5 * doy + 2) / 153;
      var month := mp + if mp < 10 then 3 else -9;
      CivilFromDays(days) == Date(if month <= 2 then 400 * era + y + 1 else 400 * era + y, month,
                                  doy - (153 * mp + 2) / 5 + 1)
  {
  }
}
