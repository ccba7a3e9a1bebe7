/** The text `format_timestamp` prints (apps/piteka-web/src/lib.rs) against RFC 3339. */
module Rfc3339 {
  import opened Text
  import opened Records
  import opened CivilDate

  datatype Moment = Moment(date: Date, hour: int, minute: int, second: int)

  predicate IsMoment(m: Moment) {
    IsDate(m.date) && 0 <= m.hour < 24 && 0 <= m.minute < 60 && 0 <= m.second < 60
  }

  /** Seconds since the first of January 1970, counted back from the date and time. */
  function Instant(m: Moment): int {
    DayNumber(m.date) * 86_400 + m.hour * 3_600 + m.minute * 60 + m.second
  }

  /** `i64::try_from(unix_secs).unwrap_or(i64::MAX)`. */
  function Saturated(unixSeconds: nat): int {
    if unixSeconds <= MAX_SECONDS then unixSeconds else MAX_SECONDS
  }

  function MomentOf(unixSeconds: nat): Moment {
    var seconds := Saturated(unixSeconds) as I64;
    var daySeconds := seconds % 86_400;
    Moment(CivilFromDays(seconds / 86_400),
           (daySeconds / 3_600) as int, (daySeconds % 3_600 / 60) as int, (daySeconds % 60) as int)
  }

  /** For every `u64`: a valid date and time, and counting back returns the input, or `i64::MAX` beyond it. */
  lemma MomentIsRight(unixSeconds: nat)
    ensures var m := MomentOf(unixSeconds); IsMoment(m) && 1970 <= m.date.year && Instant(m) == Saturated(unixSeconds)
  {
    hide CivilFromDays, DayNumber, IsDate;
    var seconds := Saturated(unixSeconds);
    CivilIsRight((seconds / 86_400) as I64);
    var t := seconds % 86_400;
    assert t == (t / 3_600) * 3_600 + t % 3_600;
    assert t % 3_600 % 60 == t % 60;
  }

  // ----- Text

  function Digit(n: int): char
    requires 0 <= n <= 9
  {
    '0' + n as char
  }

  function Decimal(n: nat): (s: string)
    ensures s != []
  {
    if n < 10 then [Digit(n)] else Decimal(n / 10) + [Digit(n % 10)]
  }

  function Zeros(n: nat): string { seq(n, _ => '0') }

  /** `{n:0width}`. */
  function Padded(n: nat, width: nat): string {
    var s := Decimal(n);
    Zeros(if |s| < width then width - |s| else 0) + s
  }

  function TextOf(m: Moment): string
    requires IsMoment(m) && 0 <= m.date.year
  {
    Padded(m.date.year, 4) + "-" + Padded(m.date.month, 2) + "-" + Padded(m.date.day, 2) + "T"
    + Padded(m.hour, 2) + ":" + Padded(m.minute, 2) + ":" + Padded(m.second, 2) + "Z"
  }

  /** `format_timestamp`, either half of its pair. */
  function FormatTimestamp(unixSeconds: nat): string {
    MomentIsRight(unixSeconds);
    TextOf(MomentOf(unixSeconds))
  }

  function Two(n: int): (s: string)
    requires 0 <= n < 100
    ensures |s| == 2
  {
    [Digit(n / 10), Digit(n % 10)]
  }

  function Four(n: int): (s: string)
    requires 0 <= n < 10_000
    ensures |s| == 4
  {
    Two(n / 100) + Two(n % 100)
  }

  lemma PaddedTwo(n: nat)
    requires n < 100
    ensures Padded(n, 2) == Two(n)
  {
    if n < 10 {
      assert Zeros(1) == ['0'];
    } else {
      assert Decimal(n) == Decimal(n / 10) + [Digit(n % 10)];
    }
  }

  lemma PaddedFour(n: nat)
    requires n < 10_000
    ensures Padded(n, 4) == Four(n)
  {
    if n < 100 {
      PaddedTwo(n);
      assert Zeros(3) == "000" && Zeros(2) == "00" && Zeros(1) == "0" && Zeros(0) == "";
    } else {
      DecimalTail(n);
      PaddedTwo(n / 100);
      assert Zeros(1) == "0" && Zeros(0) == "";
    }
  }

  lemma DecimalTail(n: nat)
    requires 100 <= n
    ensures Decimal(n) == Decimal(n / 100) + Two(n % 100)
  {
    assert n / 10 / 10 == n / 100 && n / 10 % 10 == n % 100 / 10 && n % 10 == n % 100 % 10;
    assert Decimal(n) == Decimal(n / 10) + [Digit(n % 10)];
    assert Decimal(n / 10) == Decimal(n / 10 / 10) + [Digit(n / 10 % 10)];
  }

  // ----- Section 5.6 of RFC 3339, without fraction and with offset Z

  predicate IsDigit(c: char) { '0' <= c <= '9' }

  function ValueOf(c: char): int { c as int - '0' as int }

  predicate HasShape(s: string) {
    && |s| == 20 && s[4] == '-' && s[7] == '-' && s[10] == 'T' && s[13] == ':' && s[16] == ':' && s[19] == 'Z'
    && IsDigit(s[0]) && IsDigit(s[1]) && IsDigit(s[2]) && IsDigit(s[3]) && IsDigit(s[5]) && IsDigit(s[6])
    && IsDigit(s[8]) && IsDigit(s[9]) && IsDigit(s[11]) && IsDigit(s[12]) && IsDigit(s[14]) && IsDigit(s[15])
    && IsDigit(s[17]) && IsDigit(s[18])
  }

  function Pair(s: string, i: nat): int
    requires i + 1 < |s|
  {
    10 * ValueOf(s[i]) + ValueOf(s[i + 1])
  }

  /** The fields of a date-time; ranges are those of section 5.7, leap seconds aside. */
  function Parse(s: string): Option<Moment> {
    if !HasShape(s) then None
    else
      var m := Moment(Date(100 * Pair(s, 0) + Pair(s, 2), Pair(s, 5), Pair(s, 8)), Pair(s, 11), Pair(s, 14),
                      Pair(s, 17));
      if IsMoment(m) then Some(m) else None
  }

  lemma PlainText(m: Moment)
    requires IsMoment(m) && 0 <= m.date.year < 10_000
    ensures TextOf(m) == Four(m.date.year) + "-" + Two(m.date.month) + "-" + Two(m.date.day) + "T"
                         + Two(m.hour) + ":" + Two(m.minute) + ":" + Two(m.second) + "Z"
  {
    PaddedFour(m.date.year);
    PaddedTwo(m.date.month);
    PaddedTwo(m.date.day);
    PaddedTwo(m.hour);
    PaddedTwo(m.minute);
    PaddedTwo(m.second);
  }

  lemma DigitValue(n: int)
    requires 0 <= n <= 9
    ensures IsDigit(Digit(n)) && ValueOf(Digit(n)) == n
  {
  }

  lemma TwoValue(n: int)
    requires 0 <= n < 100
    ensures IsDigit(Two(n)[0]) && IsDigit(Two(n)[1]) && Pair(Two(n), 0) == n
    ensures forall c :: c in Two(n) ==> IsDigit(c)
  {
    DigitValue(n / 10);
    DigitValue(n % 10);
  }

  // Where the fields stand in the text.
  lemma Layout(y: string, mo: string, d: string, h: string, mi: string, s: string)
    requires |y| == 4 && |mo| == |d| == |h| == |mi| == |s| == 2
    ensures var text := y + "-" + mo + "-" + d + "T" + h + ":" + mi + ":" + s + "Z";
      && |text| == 20 && text[0] == y[0] && text[1] == y[1] && text[2] == y[2] && text[3] == y[3] && text[4] == '-'
      && text[5] == mo[0] && text[6] == mo[1] && text[7] == '-' && text[8] == d[0] && text[9] == d[1] && text[10] == 'T'
      && text[11] == h[0] && text[12] == h[1] && text[13] == ':' && text[14] == mi[0] && text[15] == mi[1]
           && text[16] == ':'
      && text[17] == s[0] && text[18] == s[1] && text[19] == 'Z'
  {
  }

  // A text with the seven fields in place has the shape, and the fields are read from where they stand.
  lemma FieldsInPlace(y: string, mo: string, d: string, h: string, mi: string, s: string)
    requires |y| == 4 && |mo| == |d| == |h| == |mi| == |s| == 2
    requires forall c :: c in y + mo + d + h + mi + s ==> IsDigit(c)
    ensures var text := y + "-" + mo + "-" + d + "T" + h + ":" + mi + ":" + s + "Z";
      && HasShape(text) && Pair(text, 0) == Pair(y, 0) && Pair(text, 2) == Pair(y, 2) && Pair(text, 5) == Pair(mo, 0)
      && Pair(text, 8) == Pair(d, 0) && Pair(text, 11) == Pair(h, 0) && Pair(text, 14) == Pair(mi, 0)
           && Pair(text, 17) == Pair(s, 0)
  {
    hide IsDigit, ValueOf;
    Layout(y, mo, d, h, mi, s);
    Among(y, mo + d + h + mi + s);
    AllTwo(mo, d, h, mi, s);
  }

  lemma Among(y: string, rest: string)
    requires |y| == 4 && forall c :: c in y + rest ==> IsDigit(c)
    ensures IsDigit(y[0]) && IsDigit(y[1]) && IsDigit(y[2]) && IsDigit(y[3])
    ensures forall c :: c in rest ==> IsDigit(c)
  {
    hide IsDigit;
    assert forall i :: 0 <= i < 4 ==> y[i] in y + rest;
  }

  lemma AllTwo(mo: string, d: string, h: string, mi: string, s: string)
    requires |mo| == |d| == |h| == |mi| == |s| == 2
    requires forall c :: c in mo + d + h + mi + s ==> IsDigit(c)
    ensures forall x, i :: x in {mo, d, h, mi, s} && 0 <= i < 2 ==> IsDigit(x[i])
  {
    hide IsDigit;
    forall x, i | x in {mo, d, h, mi, s} && 0 <= i < 2 ensures IsDigit(x[i]) {
      assert x[i] in mo + d + h + mi + s;
    }
  }

  lemma FourValue(n: int)
    requires 0 <= n < 10_000
    ensures forall c :: c in Four(n) ==> IsDigit(c)
    ensures Pair(Four(n), 0) == n / 100 && Pair(Four(n), 2) == n % 100
  {
    TwoValue(n / 100);
    TwoValue(n % 100);
    assert Four(n)[0] == Two(n / 100)[0] && Four(n)[1] == Two(n / 100)[1];
    assert Four(n)[2] == Two(n % 100)[0] && Four(n)[3] == Two(n % 100)[1];
  }

  /** A moment before the year 10000 is printed as a date-time that parses back to it. */
  lemma ParseUndoesText(m: Moment)
    requires IsMoment(m) && 0 <= m.date.year < 10_000
    ensures Parse(TextOf(m)) == Some(m)
  {
    hide TextOf, Digit, IsDigit, ValueOf, HasShape, Pair, Four, Two;
    PlainText(m);
    FourValue(m.date.year);
    TwoValue(m.date.month);
    TwoValue(m.date.day);
    TwoValue(m.hour);
    TwoValue(m.minute);
    TwoValue(m.second);
    FieldsInPlace(Four(m.date.year), Two(m.date.month), Two(m.date.day), Two(m.hour), Two(m.minute), Two(m.second));
  }

  // Two digits are the number they stand for, written out.
  lemma PairIsTwo(a: char, b: char)
    requires IsDigit(a) && IsDigit(b)
    ensures var n := 10 * ValueOf(a) + ValueOf(b); 0 <= n < 100 && Two(n) == [a, b]
  {
    var n := 10 * ValueOf(a) + ValueOf(b);
    assert n / 10 == ValueOf(a) && n % 10 == ValueOf(b);
  }

  /** The parser takes nothing but printed moments: what it parses is the text of what it answers. */
  lemma TextUndoesParse(s: string)
    requires Parse(s).Some?
    ensures Parse(s).value.date.year < 10_000 && TextOf(Parse(s).value) == s
  {
    hide IsMoment, TextOf, Digit, Two;
    var m := Parse(s).value;
    ShapeIsDigits(s);
    PairIsTwo(s[0], s[1]);
    PairIsTwo(s[2], s[3]);
    PairIsTwo(s[5], s[6]);
    PairIsTwo(s[8], s[9]);
    PairIsTwo(s[11], s[12]);
    PairIsTwo(s[14], s[15]);
    PairIsTwo(s[17], s[18]);
    assert m.date.year / 100 == Pair(s, 0) && m.date.year % 100 == Pair(s, 2);
    PlainText(m);
    assert s == [s[0], s[1]] + [s[2], s[3]] + "-" + [s[5], s[6]] + "-" + [s[8], s[9]] + "T"
                + [s[11], s[12]] + ":" + [s[14], s[15]] + ":" + [s[17], s[18]] + "Z";
  }

  lemma ShapeIsDigits(s: string)
    requires HasShape(s)
    ensures forall i :: i in {0, 1, 2, 3, 5, 6, 8, 9, 11, 12, 14, 15, 17, 18} ==> IsDigit(s[i])
  {
  }

  // ----- The year 10000

  /** 9999-12-31T23:59:59Z plus one second. */
  const YEAR_10000 := 253_402_300_800

  lemma YearBound(m: Moment)
    requires IsMoment(m) && 1970 <= m.date.year
    ensures m.date.year < 10_000 <==> Instant(m) < YEAR_10000
  {
    hide DayNumber;
    var first := Date(10_000, 1, 1);
    YearsInClosedForm(10_000);
    assert DayNumber(first) == 2_932_897 by { assert DaysBeforeMonth(10_000, 1) == 0; FirstOfYear(10_000); }
    DayNumberMonotone(m.date, first);
  }

  lemma FirstOfYear(year: int)
    ensures DayNumber(Date(year, 1, 1)) == DaysBeforeYear(year)
  {
  }

  lemma {:induction false} DecimalDigits(n: nat)
    ensures forall i :: 0 <= i < |Decimal(n)| ==> IsDigit(Decimal(n)[i])
    ensures 10 <= n ==> |Decimal(n)| == |Decimal(n / 10)| + 1
  {
    if 10 <= n {
      DecimalDigits(n / 10);
      DigitValue(n % 10);
    } else {
      DigitValue(n);
    }
  }

  lemma LongYear(n: nat)
    requires 10_000 <= n
    ensures 5 <= |Decimal(n)| && IsDigit(Decimal(n)[4])
  {
    DecimalDigits(n);
    DecimalDigits(n / 10);
    DecimalDigits(n / 10 / 10);
    DecimalDigits(n / 10 / 10 / 10);
  }

  /**
   The printed text is a date-time of RFC 3339 exactly before the year 10000, and then it denotes the very instant.
   */
  lemma PrintedTextIsRfc3339(unixSeconds: nat)
    ensures Parse(FormatTimestamp(unixSeconds)).Some? <==> unixSeconds < YEAR_10000
    ensures unixSeconds < YEAR_10000 ==> Instant(Parse(FormatTimestamp(unixSeconds)).value) == unixSeconds
  {
    hide Instant, IsMoment, MomentOf, TextOf, Parse;
    var m := MomentOf(unixSeconds);
    MomentIsRight(unixSeconds);
    YearBound(m);
    if m.date.year < 10_000 {
      ParseUndoesText(m);
    } else {
      LongTextIsNone(m);
    }
  }

  lemma LongTextIsNone(m: Moment)
    requires IsMoment(m) && 10_000 <= m.date.year
    ensures Parse(TextOf(m)).None?
  {
    LongYear(m.date.year);
    assert Zeros(0) == "";
    assert TextOf(m)[4] == Decimal(m.date.year)[4];
  }

  // ----- Text order is time order (section 5.1)

  predicate MomentBefore(a: Moment, b: Moment) {
    DateBefore(a.date, b.date) || (a.date == b.date && (a.hour < b.hour || (a.hour == b.hour
    && (a.minute < b.minute || (a.minute == b.minute && a.second < b.second)))))
  }

  lemma MomentOrder(a: Moment, b: Moment)
    requires IsMoment(a) && IsMoment(b) && 1970 <= a.date.year && 1970 <= b.date.year
    ensures MomentBefore(a, b) <==> Instant(a) < Instant(b)
  {
    hide DayNumber;
    DayNumberMonotone(a.date, b.date);
    DayNumberMonotone(b.date, a.date);
  }

  // Two texts that begin with equally long fields compare by those first.
  lemma {:induction false} FieldsFirst(f: string, g: string, a: string, b: string)
    requires |f| == |g|
    ensures Before(f + a, g + b) <==> Before(f, g) || (f == g && Before(a, b))
  {
    if f == [] {
      assert f + a == a && g + b == b;
    } else {
      FieldsFirst(f[1..], g[1..], a, b);
      assert (f + a)[1..] == f[1..] + a && (g + b)[1..] == g[1..] + b;
      assert f == [f[0]] + f[1..] && g == [g[0]] + g[1..];
      if f[0] == g[0] {
        assert f[1..] == g[1..] <==> f == g;
      }
    }
  }

  lemma TwoOrder(m: int, n: int)
    requires 0 <= m < 100 && 0 <= n < 100
    ensures Before(Two(m), Two(n)) <==> m < n
    ensures Two(m) == Two(n) <==> m == n
  {
    DigitValue(m / 10);
    DigitValue(n / 10);
    DigitValue(m % 10);
    DigitValue(n % 10);
    OneOrder(Two(m)[0], Two(m)[1], Two(n)[0], Two(n)[1]);
  }

  lemma OneOrder(a: char, b: char, c: char, d: char)
    ensures Before([a, b], [c, d]) <==> a < c || (a == c && b < d)
  {
    assert [a, b][1..] == [b] && [c, d][1..] == [d];
    assert Before([b], [d]) <==> b < d by {
      assert [b][1..] == "" && [d][1..] == "";
    }
  }

  lemma FourOrder(m: int, n: int)
    requires 0 <= m < 10_000 && 0 <= n < 10_000
    ensures Before(Four(m), Four(n)) <==> m < n
    ensures Four(m) == Four(n) <==> m == n
  {
    TwoOrder(m / 100, n / 100);
    TwoOrder(m % 100, n % 100);
    FieldsFirst(Two(m / 100), Two(n / 100), Two(m % 100), Two(n % 100));
    assert Four(m)[..2] == Two(m / 100) && Four(m)[2..] == Two(m % 100);
    assert Four(n)[..2] == Two(n / 100) && Four(n)[2..] == Two(n % 100);
  }

  // One more field in front, with the separator that follows it.
  lemma NextField(f: string, g: string, sep: string, a: string, b: string)
    requires |f| == |g|
    ensures Before(f + sep + a, g + sep + b) <==> Before(f, g) || (f == g && Before(a, b))
  {
    FieldsFirst(f, g, sep + a, sep + b);
    FieldsFirst(sep, sep, a, b);
    BeforeTotal(sep, sep);
    assert f + sep + a == f + (sep + a) && g + sep + b == g + (sep + b);
  }

  function TimeText(m: Moment): string
    requires IsMoment(m)
  {
    Two(m.hour) + ":" + (Two(m.minute) + ":" + (Two(m.second) + "Z" + ""))
  }

  function DateTimeText(m: Moment): string
    requires IsMoment(m) && 0 <= m.date.year < 10_000
  {
    Four(m.date.year) + "-" + (Two(m.date.month) + "-" + (Two(m.date.day) + "T" + TimeText(m)))
  }

  lemma Regrouped(y: string, mo: string, d: string, h: string, mi: string, s: string)
    ensures y + "-" + mo + "-" + d + "T" + h + ":" + mi + ":" + s + "Z"
      == y + "-" + (mo + "-" + (d + "T" + (h + ":" + (mi + ":" + (s + "Z" + "")))))
  {
  }

  lemma TimeTextOrder(a: Moment, b: Moment)
    requires IsMoment(a) && IsMoment(b)
    ensures Before(TimeText(a), TimeText(b)) <==>
      a.hour < b.hour || (a.hour == b.hour && (a.minute < b.minute || (a.minute == b.minute && a.second < b.second)))
  {
    hide Before, Two;
    NextField(Two(a.hour), Two(b.hour), ":", Two(a.minute) + ":" + (Two(a.second) + "Z" + ""),
              Two(b.minute) + ":" + (Two(b.second) + "Z" + ""));
    NextField(Two(a.minute), Two(b.minute), ":", Two(a.second) + "Z" + "", Two(b.second) + "Z" + "");
    NextField(Two(a.second), Two(b.second), "Z", "", "");
    BeforeTotal("", "");
    TwoOrder(a.hour, b.hour);
    TwoOrder(a.minute, b.minute);
    TwoOrder(a.second, b.second);
  }

  lemma DateTimeTextOrder(a: Moment, b: Moment)
    requires IsMoment(a) && IsMoment(b) && 0 <= a.date.year < 10_000 && 0 <= b.date.year < 10_000
    ensures Before(DateTimeText(a), DateTimeText(b)) <==> MomentBefore(a, b)
  {
    hide Before, Two, Four, TimeText;
    NextField(Four(a.date.year), Four(b.date.year), "-",
              Two(a.date.month) + "-" + (Two(a.date.day) + "T" + TimeText(a)),
              Two(b.date.month) + "-" + (Two(b.date.day) + "T" + TimeText(b)));
    NextField(Two(a.date.month), Two(b.date.month), "-", Two(a.date.day) + "T" + TimeText(a),
              Two(b.date.day) + "T" + TimeText(b));
    NextField(Two(a.date.day), Two(b.date.day), "T", TimeText(a), TimeText(b));
    TimeTextOrder(a, b);
    FourOrder(a.date.year, b.date.year);
    TwoOrder(a.date.month, b.date.month);
    TwoOrder(a.date.day, b.date.day);
  }

  /** Before the year 10000, texts sort as strings exactly as their instants sort in time. */
  lemma TextOrderIsTimeOrder(s: nat, t: nat)
    requires s < YEAR_10000 && t < YEAR_10000
    ensures Before(FormatTimestamp(s), FormatTimestamp(t)) <==> s < t
  {
    hide Before, Instant, IsMoment, MomentOf, TextOf, DateTimeText, MomentBefore;
    var a, b := MomentOf(s), MomentOf(t);
    MomentIsRight(s);
    MomentIsRight(t);
    YearBound(a);
    YearBound(b);
    TextIsDateTimeText(a);
    TextIsDateTimeText(b);
    DateTimeTextOrder(a, b);
    MomentOrder(a, b);
  }

  lemma TextIsDateTimeText(m: Moment)
    requires IsMoment(m) && 0 <= m.date.year < 10_000
    ensures TextOf(m) == DateTimeText(m)
  {
    hide TextOf, Four, Two;
    PlainText(m);
    Regrouped(Four(m.date.year), Two(m.date.month), Two(m.date.day), Two(m.hour), Two(m.minute), Two(m.second));
  }
}
