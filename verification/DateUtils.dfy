/** Date strings, the order JavaScript gives them, and the calendar days they denote. */
module DateUtils {

  /** The `<=` of JavaScript strings: lexicographic by character. */
  predicate LexLe(a: string, b: string) {
    a == [] || (b != [] && (a[0] < b[0] || (a[0] == b[0] && LexLe(a[1..], b[1..]))))
  }

  predicate RangesOverlap(aStart: string, aEnd: string, bStart: string, bEnd: string) {
    LexLe(aStart, bEnd) && LexLe(bStart, aEnd)
  }

  predicate IsValidRange(startDate: string, endDate: string) {
    LexLe(startDate, endDate)
  }

  // ---- calendar days ----

  datatype Date = Date(year: nat, month: nat, day: nat)

  predicate LeapYear(y: nat) {
    y % 4 == 0 && (y % 100 != 0 || y % 400 == 0)
  }

  function DaysInMonth(y: nat, m: nat): nat {
    if m == 2 then (if LeapYear(y) then 29 else 28)
    else if m == 4 || m == 6 || m == 9 || m == 11 then 30
    else 31
  }

  predicate ValidDate(d: Date) {
    d.year <= 9999 && 1 <= d.month <= 12 && 1 <= d.day <= DaysInMonth(d.year, d.month)
  }

  function MonthStart(y: nat, m: nat): nat {
    if m <= 1 then 0 else MonthStart(y, m - 1) + DaysInMonth(y, m - 1)
  }

  function YearStart(y: nat): nat {
    if y == 0 then 0 else YearStart(y - 1) + MonthStart(y - 1, 13)
  }

  /** Days elapsed since the first day of year 0. */
  function DayNumber(d: Date): nat {
    YearStart(d.year) + MonthStart(d.year, d.month) + d.day
  }

  /** The full-date form of section 5.6 of RFC 3339: YYYY-MM-DD. */
  function Format(d: Date): string {
    Digits(d.year, 4) + "-" + Digits(d.month, 2) + "-" + Digits(d.day, 2)
  }

  function Digits(n: nat, width: nat): (s: string)
    ensures |s| == width
  {
    if width == 0 then "" else Digits(n / 10, width - 1) + [Digit(n % 10)]
  }

  function Digit(n: nat): (c: char)
    requires n < 10
  {
    '0' + n as char
  }

  /** s is the full-date form of the calendar day d. */
  predicate Denotes(s: string, d: Date) {
    ValidDate(d) && s == Format(d)
  }

  // ---- string order ----

  lemma {:induction false} LexLeTotal(a: string, b: string)
    ensures LexLe(a, b) || LexLe(b, a)
    ensures LexLe(a, b) && LexLe(b, a) <==> a == b
  {
    if a != [] && b != [] && a[0] == b[0] {
      LexLeTotal(a[1..], b[1..]);
      assert a[1..] == b[1..] ==> a == [a[0]] + a[1..] == [b[0]] + b[1..] == b;
    }
  }

  lemma {:induction false} LexLeConcat(a: string, b: string, c: string, d: string)
    requires |a| == |b|
    ensures LexLe(a + c, b + d) <==> if a == b then LexLe(c, d) else LexLe(a, b)
  {
    if a == [] {
      assert a + c == c && b + d == d;
    } else {
      LexLeConcat(a[1..], b[1..], c, d);
      assert (a + c)[1..] == a[1..] + c && (b + d)[1..] == b[1..] + d;
      assert a == [a[0]] + a[1..] && b == [b[0]] + b[1..];
    }
  }

  function Pow10(w: nat): nat {
    if w == 0 then 1 else 10 * Pow10(w - 1)
  }

  lemma {:induction false} DigitsOrder(m: nat, n: nat, w: nat)
    requires m < Pow10(w) && n < Pow10(w)
    ensures LexLe(Digits(m, w), Digits(n, w)) <==> m <= n
    ensures Digits(m, w) == Digits(n, w) <==> m == n
  {
    if w > 0 {
      var a, b := Digits(m / 10, w - 1), Digits(n / 10, w - 1);
      var c, d := [Digit(m % 10)], [Digit(n % 10)];
      DigitsOrder(m / 10, n / 10, w - 1);
      LexLeConcat(a, b, c, d);
      assert LexLe(c, d) <==> m % 10 <= n % 10;
      assert a + c == b + d <==> a == b && c == d by {
        assert a == (a + c)[..w - 1] && b == (b + d)[..w - 1];
        assert c == (a + c)[w - 1..] && d == (b + d)[w - 1..];
      }
    }
  }

  predicate DateLe(a: Date, b: Date) {
    a.year < b.year ||
    (a.year == b.year && (a.month < b.month || (a.month == b.month && a.day <= b.day)))
  }

  function DateTail(d: Date): string {
    Digits(d.month, 2) + ("-" + Digits(d.day, 2))
  }

  lemma FormatSplits(d: Date)
    ensures Format(d) == Digits(d.year, 4) + ("-" + DateTail(d))
    ensures |Format(d)| == 10
  {
  }

  lemma TailOrder(a: Date, b: Date)
    requires ValidDate(a) && ValidDate(b)
    ensures LexLe(DateTail(a), DateTail(b)) <==> if a.month == b.month then a.day <= b.day else a.month <= b.month
  {
    assert Pow10(2) == 100;
    DigitsOrder(a.month, b.month, 2);
    DigitsOrder(a.day, b.day, 2);
    var d, d' := Digits(a.day, 2), Digits(b.day, 2);
    LexLeConcat(Digits(a.month, 2), Digits(b.month, 2), "-" + d, "-" + d');
    LexLeConcat("-", "-", d, d');
  }

  lemma FormatOrder(a: Date, b: Date)
    requires ValidDate(a) && ValidDate(b)
    ensures LexLe(Format(a), Format(b)) <==> DateLe(a, b)
    ensures Format(a) == Format(b) <==> a == b
  {
    FormatLexOrder(a, b);
    FormatLexOrder(b, a);
    LexLeTotal(Format(a), Format(b));
  }

  lemma FormatLexOrder(a: Date, b: Date)
    requires ValidDate(a) && ValidDate(b)
    ensures LexLe(Format(a), Format(b)) <==> DateLe(a, b)
  {
    assert Pow10(4) == 10000;
    DigitsOrder(a.year, b.year, 4);
    FormatSplits(a);
    FormatSplits(b);
    LexLeConcat(Digits(a.year, 4), Digits(b.year, 4), "-" + DateTail(a), "-" + DateTail(b));
    LexLeConcat("-", "-", DateTail(a), DateTail(b));
    TailOrder(a, b);
  }

  // ---- day order ----

  lemma {:induction false} MonthStartMonotone(y: nat, m: nat, n: nat)
    requires 1 <= m < n
    ensures MonthStart(y, m) + DaysInMonth(y, m) <= MonthStart(y, n)
  {
    if m < n - 1 {
      MonthStartMonotone(y, m, n - 1);
    }
  }

  lemma {:induction false} YearStartMonotone(y: nat, z: nat)
    requires y < z
    ensures YearStart(y) + MonthStart(y, 13) <= YearStart(z)
  {
    if y < z - 1 {
      YearStartMonotone(y, z - 1);
    }
  }

  lemma DayNumberOrder(a: Date, b: Date)
    requires ValidDate(a) && ValidDate(b)
    ensures DateLe(a, b) <==> DayNumber(a) <= DayNumber(b)
    ensures DayNumber(a) == DayNumber(b) <==> a == b
  {
    if a != b {
      if DateLe(a, b) {
        DayNumberStrict(a, b);
      } else {
        DayNumberStrict(b, a);
      }
    }
  }

  lemma DayNumberStrict(a: Date, b: Date)
    requires ValidDate(a) && ValidDate(b) && DateLe(a, b) && a != b
    ensures DayNumber(a) < DayNumber(b)
  {
    if a.year < b.year {
      YearStartMonotone(a.year, b.year);
      MonthStartMonotone(a.year, a.month, 13);
    } else if a.month < b.month {
      MonthStartMonotone(a.year, a.month, b.month);
    }
  }

  /** Comparing full-date strings is comparing days. */
  lemma StringOrderIsDayOrder(s: string, t: string, a: Date, b: Date)
    requires Denotes(s, a) && Denotes(t, b)
    ensures LexLe(s, t) <==> DayNumber(a) <= DayNumber(b)
  {
    FormatOrder(a, b);
    DayNumberOrder(a, b);
  }

  /** The day d lies in the closed range written as two date strings. */
  predicate Covers(startDate: string, endDate: string, d: Date) {
    ValidDate(d) && LexLe(startDate, Format(d)) && LexLe(Format(d), endDate)
  }

  /** For valid full-date ranges, rangesOverlap is true exactly when some calendar day lies in both. */
  lemma OverlapIsCommonDay(aS: string, aE: string, bS: string, bE: string, a0: Date, a1: Date, b0: Date, b1: Date)
    requires Denotes(aS, a0) && Denotes(aE, a1) && Denotes(bS, b0) && Denotes(bE, b1)
    requires IsValidRange(aS, aE) && IsValidRange(bS, bE)
    ensures RangesOverlap(aS, aE, bS, bE) <==> exists d :: Covers(aS, aE, d) && Covers(bS, bE, d)
  {
    StringOrderIsDayOrder(aS, aE, a0, a1);
    StringOrderIsDayOrder(bS, bE, b0, b1);
    StringOrderIsDayOrder(aS, bE, a0, b1);
    StringOrderIsDayOrder(bS, aE, b0, a1);
    if RangesOverlap(aS, aE, bS, bE) {
      var d := if DayNumber(a0) <= DayNumber(b0) then b0 else a0;
      StringOrderIsDayOrder(aS, Format(d), a0, d);
      StringOrderIsDayOrder(bS, Format(d), b0, d);
      StringOrderIsDayOrder(Format(d), aE, d, a1);
      StringOrderIsDayOrder(Format(d), bE, d, b1);
      assert Covers(aS, aE, d) && Covers(bS, bE, d);
    }
    forall d | Covers(aS, aE, d) && Covers(bS, bE, d)
      ensures RangesOverlap(aS, aE, bS, bE)
    {
      StringOrderIsDayOrder(aS, Format(d), a0, d);
      StringOrderIsDayOrder(bS, Format(d), b0, d);
      StringOrderIsDayOrder(Format(d), aE, d, a1);
      StringOrderIsDayOrder(Format(d), bE, d, b1);
    }
  }

  // ---- dates with a time appended ----

  /** Some calendar day lies in both closed ranges of days. */
  ghost predicate ShareDay(a0: Date, a1: Date, b0: Date, b1: Date) {
    exists d :: ValidDate(d) && DateLe(a0, d) && DateLe(d, a1) && DateLe(b0, d) && DateLe(d, b1)
  }

  lemma TimedOrder(a: Date, s: string, b: Date, t: string)
    requires ValidDate(a) && ValidDate(b)
    ensures LexLe(Format(a) + s, Format(b) + t) <==> if a == b then LexLe(s, t) else DateLe(a, b)
  {
    FormatSplits(a);
    FormatSplits(b);
    LexLeConcat(Format(a), Format(b), s, t);
    FormatOrder(a, b);
  }

  lemma ShareDayIff(a0: Date, a1: Date, b0: Date, b1: Date)
    requires ValidDate(a0) && ValidDate(b0) && DateLe(a0, a1) && DateLe(b0, b1)
    ensures ShareDay(a0, a1, b0, b1) <==> DateLe(a0, b1) && DateLe(b0, a1)
  {
    if DateLe(a0, b1) && DateLe(b0, a1) {
      var d := if DateLe(a0, b0) then b0 else a0;
      assert ValidDate(d) && DateLe(a0, d) && DateLe(d, a1) && DateLe(b0, d) && DateLe(d, b1);
    }
  }

  /**
   * For valid ranges of dates with anything appended, rangesOverlap misses a shared day exactly when one range ends on
   * the day the other starts and the text after the start is not below the text after the end.
   */
  lemma TimedOverlap(a0: Date, aT0: string, a1: Date, aT1: string, b0: Date, bT0: string, b1: Date, bT1: string)
    requires ValidDate(a0) && ValidDate(a1) && ValidDate(b0) && ValidDate(b1)
    requires IsValidRange(Format(a0) + aT0, Format(a1) + aT1) && IsValidRange(Format(b0) + bT0, Format(b1) + bT1)
    ensures RangesOverlap(Format(a0) + aT0, Format(a1) + aT1, Format(b0) + bT0, Format(b1) + bT1) <==>
            ShareDay(a0, a1, b0, b1) && !((a0 == b1 && !LexLe(aT0, bT1)) || (b0 == a1 && !LexLe(bT0, aT1)))
  {
    TimedOrder(a0, aT0, a1, aT1);
    TimedOrder(b0, bT0, b1, bT1);
    TimedOrder(a0, aT0, b1, bT1);
    TimedOrder(b0, bT0, a1, aT1);
    ShareDayIff(a0, a1, b0, b1);
  }

  /** In particular a date with anything appended escapes the comparison with the date itself. */
  lemma TimestampEscapesOverlap(day: string, suffix: string)
    requires suffix != ""
    ensures IsValidRange(day, day) && IsValidRange(day + suffix, day + suffix)
    ensures !RangesOverlap(day, day, day + suffix, day + suffix)
  {
    LexLeTotal(day, day);
    LexLeTotal(day + suffix, day + suffix);
    LexLeConcat(day, day, suffix, "");
    assert day + "" == day;
  }
}
