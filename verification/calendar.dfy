/**
 * Calendar dates and instants as the pages write them: `toISOString()`
 * and its date part `YYYY-MM-DD`, read back by `new Date(...)`.  All dates
 * here are UTC dates, as `toISOString` produces them.
 */
module Calendar {
  import opened Js

  /** A proleptic Gregorian calendar date; `month` runs from 1 to 12. */
  datatype Date = Date(year: int, month: int, day: int)

  predicate IsLeap(y: int) {
    y % 4 == 0 && (y % 100 != 0 || y % 400 == 0)
  }

  function DaysInMonth(y: int, m: int): (n: int)
    requires 1 <= m <= 12
    ensures 28 <= n <= 31
  {
    if m == 2 then (if IsLeap(y) then 29 else 28)
    else if m == 4 || m == 6 || m == 9 || m == 11 then 30
    else 31
  }

  /** The dates a four-digit ISO year can name. */
  predicate Valid(d: Date) {
    0 <= d.year <= 9999 && 1 <= d.month <= 12 && 1 <= d.day <= DaysInMonth(d.year, d.month)
  }

  /** Chronological order: `new Date(a) < new Date(b)` for two date strings. */
  predicate Before(a: Date, b: Date) {
    a.year < b.year
    || (a.year == b.year && a.month < b.month)
    || (a.year == b.year && a.month == b.month && a.day < b.day)
  }

  // ---------------------------------------------------------------------
  // The text form YYYY-MM-DD
  // ---------------------------------------------------------------------

  function Pad2(n: int): (s: string)
    requires 0 <= n < 100
    ensures |s| == 2 && IsDigit(s[0]) && IsDigit(s[1])
    ensures 10 * Val(s[0]) + Val(s[1]) == n
  {
    [DigitChar(n / 10), DigitChar(n % 10)]
  }

  function Pad3(n: int): (s: string)
    requires 0 <= n < 1000
    ensures |s| == 3 && IsDigit(s[0]) && IsDigit(s[1]) && IsDigit(s[2])
    ensures 100 * Val(s[0]) + 10 * Val(s[1]) + Val(s[2]) == n
  {
    [DigitChar(n / 100), DigitChar(n / 10 % 10), DigitChar(n % 10)]
  }

  function Pad4(n: int): (s: string)
    requires 0 <= n < 10000
    ensures |s| == 4 && forall i :: 0 <= i < 4 ==> IsDigit(s[i])
  {
    Pad2(n / 100) + Pad2(n % 100)
  }

  /** The date part of `toISOString()`. */
  function Format(d: Date): (s: string)
    requires Valid(d)
    ensures |s| == 10 && s[4] == '-' && s[7] == '-' && 'T' !in s
  {
    Pad4(d.year) + "-" + Pad2(d.month) + "-" + Pad2(d.day)
  }

  function Val(c: char): int {
    c as int - '0' as int
  }

  /** Two digit characters read as a number and written back give the same characters. */
  lemma Pad2Read(s: string)
    requires |s| == 2 && IsDigit(s[0]) && IsDigit(s[1])
    ensures 0 <= 10 * Val(s[0]) + Val(s[1]) < 100
    ensures Pad2(10 * Val(s[0]) + Val(s[1])) == s
  {
    var a, b := Val(s[0]), Val(s[1]);
    DivMod10(a, b);
  }

  /** Four digit characters read as a number and written back give the same characters. */
  lemma Pad4Read(s: string)
    requires |s| == 4 && IsDigit(s[0]) && IsDigit(s[1]) && IsDigit(s[2]) && IsDigit(s[3])
    ensures 0 <= 100 * (10 * Val(s[0]) + Val(s[1])) + 10 * Val(s[2]) + Val(s[3]) < 10000
    ensures Pad4(100 * (10 * Val(s[0]) + Val(s[1])) + 10 * Val(s[2]) + Val(s[3])) == s
  {
    var hi, lo := 10 * Val(s[0]) + Val(s[1]), 10 * Val(s[2]) + Val(s[3]);
    Pad2Read(s[0..2]);
    Pad2Read(s[2..4]);
    DivMod100(hi, lo);
    assert s == s[0..2] + s[2..4];
  }

  lemma DivMod10(q: int, r: int)
    requires 0 <= r < 10
    ensures (10 * q + r) / 10 == q && (10 * q + r) % 10 == r
  {
  }

  lemma DivMod100(q: int, r: int)
    requires 0 <= r < 100
    ensures (100 * q + r) / 100 == q && (100 * q + r) % 100 == r
  {
  }

  predicate DateShape(s: string) {
    |s| == 10 && s[4] == '-' && s[7] == '-'
    && IsDigit(s[0]) && IsDigit(s[1]) && IsDigit(s[2]) && IsDigit(s[3])
    && IsDigit(s[5]) && IsDigit(s[6]) && IsDigit(s[8]) && IsDigit(s[9])
  }

  function YearOf(s: string): int
    requires DateShape(s)
  {
    100 * (10 * Val(s[0]) + Val(s[1])) + 10 * Val(s[2]) + Val(s[3])
  }

  function MonthOf(s: string): int
    requires DateShape(s)
  {
    10 * Val(s[5]) + Val(s[6])
  }

  function DayOf(s: string): int
    requires DateShape(s)
  {
    10 * Val(s[8]) + Val(s[9])
  }

  /** A well-shaped string naming a real day is the text form of that day. */
  lemma ShapeFormat(s: string)
    requires DateShape(s) && 1 <= MonthOf(s) <= 12 && 1 <= DayOf(s) <= DaysInMonth(YearOf(s), MonthOf(s))
    ensures Valid(Date(YearOf(s), MonthOf(s), DayOf(s)))
    ensures Format(Date(YearOf(s), MonthOf(s), DayOf(s))) == s
  {
    Pad4Read(s[0..4]);
    Pad2Read(s[5..7]);
    Pad2Read(s[8..10]);
    assert s == s[0..4] + "-" + s[5..7] + "-" + s[8..10];
  }

  /**
   * `new Date(s)` for the date strings the pages write: exactly ten
   * characters `YYYY-MM-DD` naming a day that exists. Other text reads as no
   * date here; the other formats `new Date` also accepts are not modelled.
   */
  function Parse(s: string): (r: Option<Date>)
    ensures r.Some? ==> Valid(r.value)
  {
    if DateShape(s) && 1 <= MonthOf(s) <= 12 && 1 <= DayOf(s) <= DaysInMonth(YearOf(s), MonthOf(s)) then
      ShapeFormat(s);
      Some(Date(YearOf(s), MonthOf(s), DayOf(s)))
    else None
  }

  /** A string that parses is the text form of the date it names. */
  lemma FormatParse(s: string)
    requires Parse(s).Some?
    ensures Format(Parse(s).value) == s
  {
    ShapeFormat(s);
  }

  /** Every valid date survives the trip through its text form. */
  lemma ParseFormat(d: Date)
    requires Valid(d)
    ensures Parse(Format(d)) == Some(d)
  {
    var s := Format(d);
    var hi, lo := Pad2(d.year / 100), Pad2(d.year % 100);
    assert s[0..2] == hi && s[2..4] == lo;
    assert s[5..7] == Pad2(d.month) && s[8..10] == Pad2(d.day);
    assert d.year == 100 * (d.year / 100) + d.year % 100;
  }

  lemma FormatInjective(a: Date, b: Date)
    requires Valid(a) && Valid(b)
    ensures Format(a) == Format(b) <==> a == b
  {
    ParseFormat(a);
    ParseFormat(b);
  }

  /**
   * `new Date(s)` as a day count, the quantity the pages subtract when they
   * sort by date; an invalid date (whose time is NaN) counts as 0 here.
   */
  function DateValue(s: string): (v: int)
    ensures Parse(s).Some? ==> v == DayNumber(Parse(s).value)
    ensures Parse(s).None? ==> v == 0
  {
    match Parse(s)
    case Some(d) => DayNumber(d)
    case None => 0
  }

  /** Sorting by `DateValue` puts the dates of well-formed strings in chronological order. */
  lemma DateValueOrder(a: Date, b: Date)
    requires Valid(a) && Valid(b) && Before(a, b)
    ensures DateValue(Format(a)) < DateValue(Format(b))
  {
    ParseFormat(a);
    ParseFormat(b);
    DayNumberOrder(a, b);
  }

  // ---------------------------------------------------------------------
  // Comparing the text forms
  // ---------------------------------------------------------------------

  lemma {:induction false} StrLessAppend(a1: string, a2: string, b1: string, b2: string)
    requires |a1| == |b1|
    ensures StrLess(a1 + a2, b1 + b2) <==> StrLess(a1, b1) || (a1 == b1 && StrLess(a2, b2))
    decreases |a1|
  {
    if a1 == [] {
      assert a1 + a2 == a2 && b1 + b2 == b2;
    } else {
      var x, y := a1 + a2, b1 + b2;
      assert x[0] == a1[0] && y[0] == b1[0];
      assert x[1..] == a1[1..] + a2;
      assert y[1..] == b1[1..] + b2;
      StrLessAppend(a1[1..], a2, b1[1..], b2);
      if a1[0] == b1[0] {
        assert StrLess(x, y) == StrLess(x[1..], y[1..]);
        assert StrLess(a1, b1) == StrLess(a1[1..], b1[1..]);
        assert a1 == [a1[0]] + a1[1..] && b1 == [b1[0]] + b1[1..];
        assert a1 == b1 <==> a1[1..] == b1[1..];
      } else {
        assert StrLess(x, y) == (a1[0] < b1[0]) == StrLess(a1, b1);
      }
    }
  }

  lemma Pad2Order(x: int, y: int)
    requires 0 <= x < 100 && 0 <= y < 100
    ensures StrLess(Pad2(x), Pad2(y)) <==> x < y
    ensures Pad2(x) == Pad2(y) <==> x == y
  {
    var px, py := Pad2(x), Pad2(y);
    assert px[1..] == [px[1]] && py[1..] == [py[1]];
    assert [px[1]][1..] == [] && [py[1]][1..] == [];
    assert !StrLess([], []);
    assert StrLess([px[1]], [py[1]]) <==> px[1] < py[1];
  }

  lemma Pad4Order(x: int, y: int)
    requires 0 <= x < 10000 && 0 <= y < 10000
    ensures StrLess(Pad4(x), Pad4(y)) <==> x < y
    ensures Pad4(x) == Pad4(y) <==> x == y
  {
    StrLessAppend(Pad2(x / 100), Pad2(x % 100), Pad2(y / 100), Pad2(y % 100));
    Pad2Order(x / 100, y / 100);
    Pad2Order(x % 100, y % 100);
    if Pad4(x) == Pad4(y) {
      assert Pad4(x)[..2] == Pad2(x / 100) && Pad4(y)[..2] == Pad2(y / 100);
      assert Pad4(x)[2..] == Pad2(x % 100) && Pad4(y)[2..] == Pad2(y % 100);
    }
  }

  /**
   * Comparing two `YYYY-MM-DD` strings with `<`, as the visitor log does,
   * agrees with the order of the dates they name.
   */
  lemma FormatOrder(a: Date, b: Date)
    requires Valid(a) && Valid(b)
    ensures StrLess(Format(a), Format(b)) <==> Before(a, b)
  {
    var ta, tb := "-" + Pad2(a.day), "-" + Pad2(b.day);
    var ma, mb := "-" + Pad2(a.month) + ta, "-" + Pad2(b.month) + tb;
    assert Format(a) == Pad4(a.year) + ma;
    assert Format(b) == Pad4(b.year) + mb;
    Pad4Order(a.year, b.year);
    Pad2Order(a.month, b.month);
    Pad2Order(a.day, b.day);
    StrLessAppend(Pad4(a.year), ma, Pad4(b.year), mb);
    StrLessAppend("-" + Pad2(a.month), ta, "-" + Pad2(b.month), tb);
    StrLessAppend("-", Pad2(a.month), "-", Pad2(b.month));
    StrLessAppend("-", Pad2(a.day), "-", Pad2(b.day));
    StrLessTotal("-", "-");
    if "-" + Pad2(a.month) == "-" + Pad2(b.month) {
      assert Pad2(a.month) == ("-" + Pad2(a.month))[1..];
      assert Pad2(b.month) == ("-" + Pad2(b.month))[1..];
    }
  }

  // ---------------------------------------------------------------------
  // Day numbers and instants
  // ---------------------------------------------------------------------

  function YearLength(y: int): int {
    if IsLeap(y) then 366 else 365
  }

  function DaysBeforeYear(y: nat): nat {
    if y == 0 then 0 else DaysBeforeYear(y - 1) + YearLength(y - 1)
  }

  /** Days in the months of year `y` before month `m`. */
  function DaysBeforeMonth(y: int, m: int): (n: nat)
    requires 1 <= m <= 12
    ensures m > 1 ==> n == DaysBeforeMonth(y, m - 1) + DaysInMonth(y, m - 1)
    ensures n + DaysInMonth(y, m) <= YearLength(y)
    ensures m == 12 ==> n + DaysInMonth(y, m) == YearLength(y)
  {
    var cumulative := [0, 31, 59, 90, 120, 151, 181, 212, 243, 273, 304, 334];
    cumulative[m - 1] + (if m > 2 && IsLeap(y) then 1 else 0)
  }

  lemma {:induction false} DaysBeforeYearMonotone(x: nat, y: nat)
    requires x < y
    ensures DaysBeforeYear(x) + YearLength(x) <= DaysBeforeYear(y)
    decreases y
  {
    if x + 1 < y { DaysBeforeYearMonotone(x, y - 1); }
  }

  lemma {:induction false} DaysBeforeMonthMonotone(y: int, m: int, n: int)
    requires 1 <= m < n <= 12
    ensures DaysBeforeMonth(y, m) + DaysInMonth(y, m) <= DaysBeforeMonth(y, n)
    decreases n
  {
    if m + 1 < n { DaysBeforeMonthMonotone(y, m, n - 1); }
  }

  /** Days since 1 January of year 0; only differences of day numbers are used. */
  function DayNumber(d: Date): int
    requires Valid(d)
  {
    DaysBeforeYear(d.year) + DaysBeforeMonth(d.year, d.month) + d.day - 1
  }

  /** Later dates have larger day numbers. */
  lemma DayNumberOrder(a: Date, b: Date)
    requires Valid(a) && Valid(b) && Before(a, b)
    ensures DayNumber(a) < DayNumber(b)
  {
    if a.year < b.year {
      DaysBeforeYearMonotone(a.year, b.year);
    } else if a.month < b.month {
      DaysBeforeMonthMonotone(a.year, a.month, b.month);
    }
  }

  /** The day before `d`. */
  function PrevDay(d: Date): (r: Date)
    requires Valid(d) && d != Date(0, 1, 1)
    ensures Valid(r) && Before(r, d)
    ensures DayNumber(r) == DayNumber(d) - 1
  {
    if d.day > 1 then Date(d.year, d.month, d.day - 1)
    else if d.month > 1 then Date(d.year, d.month - 1, DaysInMonth(d.year, d.month - 1))
    else Date(d.year - 1, 12, 31)
  }

  /** `now.setDate(now.getDate() - n)` on a UTC date: `n` days earlier. */
  function DaysEarlier(d: Date, n: nat): (r: Date)
    requires Valid(d) && DayNumber(d) >= n
    ensures Valid(r) && DayNumber(r) == DayNumber(d) - n
    decreases n
  {
    if n == 0 then d
    else
      assert d != Date(0, 1, 1);
      DaysEarlier(PrevDay(d), n - 1)
  }

  const MsPerDay := 86400000

  /** An instant: a UTC date and the milliseconds elapsed since its midnight. */
  datatype Instant = Instant(date: Date, ms: int)

  predicate ValidInstant(t: Instant) {
    Valid(t.date) && 0 <= t.ms < MsPerDay
  }

  /** The instant as a millisecond count, up to a constant offset from the epoch. */
  function Millis(t: Instant): int
    requires ValidInstant(t)
  {
    DayNumber(t.date) * MsPerDay + t.ms
  }

  lemma MillisOrder(s: Instant, t: Instant)
    requires ValidInstant(s) && ValidInstant(t)
    requires Before(s.date, t.date) || (s.date == t.date && s.ms < t.ms)
    ensures Millis(s) < Millis(t)
  {
    if Before(s.date, t.date) {
      DayNumberOrder(s.date, t.date);
    }
  }

  /** `t.toISOString()`: `YYYY-MM-DDTHH:MM:SS.mmmZ`. */
  function IsoString(t: Instant): (s: string)
    requires ValidInstant(t)
    ensures |s| == 24
  {
    Format(t.date) + "T" + Clock(t.ms)
  }

  /** The time part of `toISOString()`: `HH:MM:SS.mmmZ` for the milliseconds since midnight. */
  function Clock(ms: int): (s: string)
    requires 0 <= ms < MsPerDay
    ensures |s| == 13
  {
    Pad2(ms / 3600000) + ":" + Pad2(ms / 60000 % 60) + ":" + Pad2(ms / 1000 % 60) + "." + Pad3(ms % 1000) + "Z"
  }

  /**
   * The time part of a date-time string as milliseconds since midnight:
   * `HH:MM:SS`, then optionally `.mmm`, then optionally `Z`.
   */
  function ParseClock(s: string): (r: Option<int>)
    ensures r.Some? ==> 0 <= r.value < MsPerDay
  {
    if |s| >= 8 && s[2] == ':' && s[5] == ':' && IsDigit(s[0]) && IsDigit(s[1]) && IsDigit(s[3])
       && IsDigit(s[4]) && IsDigit(s[6]) && IsDigit(s[7])
    then
      var h, m, sec := 10 * Val(s[0]) + Val(s[1]), 10 * Val(s[3]) + Val(s[4]), 10 * Val(s[6]) + Val(s[7]);
      var rest := s[8..];
      var hasFraction := |rest| >= 4 && rest[0] == '.' && IsDigit(rest[1]) && IsDigit(rest[2]) && IsDigit(rest[3]);
      var fraction := if hasFraction then 100 * Val(rest[1]) + 10 * Val(rest[2]) + Val(rest[3]) else 0;
      var tail := if hasFraction then rest[4..] else rest;
      if h < 24 && m < 60 && sec < 60 && (tail == "" || tail == "Z") then
        Some(h * 3600000 + m * 60000 + sec * 1000 + fraction)
      else None
    else None
  }

  /** Hours, minutes, seconds and milliseconds put back together give the milliseconds. */
  lemma ClockParts(ms: int)
    requires 0 <= ms < MsPerDay
    ensures (ms / 3600000) * 3600000 + (ms / 60000 % 60) * 60000 + (ms / 1000 % 60) * 1000 + ms % 1000 == ms
  {
    var secs := ms / 1000;
    assert ms == secs * 1000 + ms % 1000;
    assert ms / 60000 == secs / 60;
    assert ms / 3600000 == secs / 3600;
    var mins := secs / 60;
    assert secs == mins * 60 + secs % 60;
    assert secs / 3600 == mins / 60;
    assert mins == (mins / 60) * 60 + mins % 60;
  }

  /** The time part written by `toISOString()` reads back as the same milliseconds. */
  lemma ParseClockOfClock(ms: int)
    requires 0 <= ms < MsPerDay
    ensures ParseClock(Clock(ms)) == Some(ms)
  {
    var s := Clock(ms);
    var h, m, sec, f := Pad2(ms / 3600000), Pad2(ms / 60000 % 60), Pad2(ms / 1000 % 60), Pad3(ms % 1000);
    assert s[0] == h[0] && s[1] == h[1] && s[2] == ':';
    assert s[3] == m[0] && s[4] == m[1] && s[5] == ':';
    assert s[6] == sec[0] && s[7] == sec[1];
    assert s[8..] == "." + f + "Z";
    ClockParts(ms);
  }

  /**
   * `new Date(s)` for a date-time string `YYYY-MM-DDTHH:MM:SS[.mmm][Z]`, as
   * milliseconds on the scale of `Millis`; anything else is an invalid date.
   */
  function ParseStamp(s: string): (r: Option<int>)
  {
    if |s| >= 11 && s[10] == 'T' then
      match (Parse(s[..10]), ParseClock(s[11..]))
      case (Some(d), Some(c)) => Some(DayNumber(d) * MsPerDay + c)
      case _ => None
    else None
  }

  /** Every instant survives the trip through `toISOString()`. */
  lemma ParseStampOfIso(t: Instant)
    requires ValidInstant(t)
    ensures ParseStamp(IsoString(t)) == Some(Millis(t))
  {
    var s := IsoString(t);
    assert s[..10] == Format(t.date);
    assert s[11..] == Clock(t.ms);
    ParseFormat(t.date);
    ParseClockOfClock(t.ms);
  }

  /** `t.toISOString().split('T')[0]` is the UTC date of `t`. */
  lemma IsoDatePart(t: Instant)
    requires ValidInstant(t)
    ensures Split(IsoString(t), 'T')[0] == Format(t.date)
  {
    assert IsoString(t) == Format(t.date) + ['T'] + Clock(t.ms);
    SplitHeadOfConcat(Format(t.date), 'T', Clock(t.ms));
  }

  /** `now.toISOString().split('T')[0]`: today's UTC date as `YYYY-MM-DD`. */
  function Today(now: Instant): (s: string)
    requires ValidInstant(now)
    ensures s == Format(now.date)
  {
    IsoDatePart(now);
    Split(IsoString(now), 'T')[0]
  }
}
