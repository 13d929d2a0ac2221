/** Civil dates, archive directory names, and the retention window they delimit. */
module Clock {
  import opened Base
  import Naming

  datatype Date = Date(year: int, month: int, day: int)

  predicate Leap(year: int) { year % 4 == 0 && (year % 100 != 0 || year % 400 == 0) }

  function DaysIn(year: int, month: int): int {
    if month == 2 then (if Leap(year) then 29 else 28)
    else if month == 4 || month == 6 || month == 9 || month == 11 then 30
    else 31
  }

  predicate IsDate(d: Date) {
    1 <= d.year && 1 <= d.month <= 12 && 1 <= d.day <= DaysIn(d.year, d.month)
  }

  // ---------------------------------------------------------------- arithmetic

  function DaysBeforeYear(year: int): int {
    365 * (year - 1) + LeapDays((year - 1) / 4, (year - 1) / 100, (year - 1) / 400)
  }

  function DaysBeforeMonth(year: int, month: int): int
    requires 1 <= month <= 12
  {
    if month == 1 then 0 else DaysBeforeMonth(year, month - 1) + DaysIn(year, month - 1)
  }

  /** The proleptic Gregorian ordinal: 1 January of year 1 is day 1. */
  function Ordinal(d: Date): int
    requires IsDate(d)
  {
    DaysBeforeYear(d.year) + DaysBeforeMonth(d.year, d.month) + d.day
  }

  predicate Earlier(a: Date, b: Date) {
    a.year < b.year || (a.year == b.year && (a.month < b.month || (a.month == b.month && a.day < b.day)))
  }

  function NextDay(d: Date): (r: Date)
    requires IsDate(d)
    ensures IsDate(r)
  {
    if d.day < DaysIn(d.year, d.month) then d.(day := d.day + 1)
    else if d.month < 12 then Date(d.year, d.month + 1, 1)
    else Date(d.year + 1, 1, 1)
  }

  lemma YearLength(year: int)
    requires year >= 1
    ensures DaysBeforeMonth(year, 12) + DaysIn(year, 12) == if Leap(year) then 366 else 365
  {
    var f := if Leap(year) then 29 else 28;
    assert DaysBeforeMonth(year, 2) == 31;
    assert DaysBeforeMonth(year, 3) == 31 + f;
    assert DaysBeforeMonth(year, 4) == 62 + f;
    assert DaysBeforeMonth(year, 5) == 92 + f;
    assert DaysBeforeMonth(year, 6) == 123 + f;
    assert DaysBeforeMonth(year, 7) == 153 + f;
    assert DaysBeforeMonth(year, 8) == 184 + f;
    assert DaysBeforeMonth(year, 9) == 215 + f;
    assert DaysBeforeMonth(year, 10) == 245 + f;
    assert DaysBeforeMonth(year, 11) == 276 + f;
    assert DaysBeforeMonth(year, 12) == 306 + f;
  }

  lemma Quarter(n: int)
    requires n >= 1
    ensures n / 4 == (n - 1) / 4 + if n % 4 == 0 then 1 else 0
  {
  }

  lemma Century(n: int)
    requires n >= 1
    ensures n / 100 == (n - 1) / 100 + if n % 100 == 0 then 1 else 0
  {
  }

  lemma FourCenturies(n: int)
    requires n >= 1
    ensures n / 400 == (n - 1) / 400 + if n % 400 == 0 then 1 else 0
  {
  }

  lemma Divisibility(n: int)
    ensures n % 100 == 0 ==> n % 4 == 0
    ensures n % 400 == 0 ==> n % 100 == 0
  {
    if n % 100 == 0 {
      var q := n / 100;
      assert n == 4 * (25 * q);
    }
    if n % 400 == 0 {
      var q := n / 400;
      assert n == 100 * (4 * q);
    }
  }

  function LeapDays(quarters: int, centuries: int, fours: int): int { quarters - centuries + fours }

  /** Leap days come exactly when the year is divisible the right way. */
  lemma NextYear(year: int)
    requires year >= 1
    ensures DaysBeforeYear(year + 1) == DaysBeforeYear(year) + if Leap(year) then 366 else 365
  {
    Quarter(year);
    Century(year);
    FourCenturies(year);
    Divisibility(year);
  }

  lemma OrdinalOfNextDay(d: Date)
    requires IsDate(d)
    ensures Ordinal(NextDay(d)) == Ordinal(d) + 1
  {
    hide DaysBeforeYear;
    if d.day == DaysIn(d.year, d.month) && d.month == 12 {
      YearLength(d.year);
      NextYear(d.year);
    }
  }

  lemma {:induction false} MonthsAddUp(year: int, a: int, b: int)
    requires 1 <= a < b <= 12
    ensures DaysBeforeMonth(year, a) + DaysIn(year, a) <= DaysBeforeMonth(year, b)
    decreases b
  {
    if a < b - 1 {
      MonthsAddUp(year, a, b - 1);
    }
  }

  lemma {:induction false} YearsAddUp(a: int, b: int)
    requires 1 <= a <= b
    ensures DaysBeforeYear(a) <= DaysBeforeYear(b)
    decreases b
  {
    if a < b {
      hide DaysBeforeYear;
      NextYear(b - 1);
      YearsAddUp(a, b - 1);
    }
  }

  lemma WithinYear(d: Date)
    requires IsDate(d)
    ensures Ordinal(d) <= DaysBeforeYear(d.year + 1)
  {
    hide DaysBeforeYear;
    YearLength(d.year);
    NextYear(d.year);
    if d.month < 12 {
      MonthsAddUp(d.year, d.month, 12);
    }
  }

  /** The ordinal is strictly increasing in the calendar order. */
  lemma OrdinalIncreases(a: Date, b: Date)
    requires IsDate(a) && IsDate(b) && Earlier(a, b)
    ensures Ordinal(a) < Ordinal(b)
  {
    hide DaysBeforeYear;
    if a.year < b.year {
      WithinYear(a);
      YearsAddUp(a.year + 1, b.year);
      MonthsNonNegative(b.year, b.month);
    } else if a.month < b.month {
      MonthsAddUp(a.year, a.month, b.month);
    }
  }

  lemma {:induction false} MonthsNonNegative(year: int, month: int)
    requires 1 <= month <= 12
    ensures DaysBeforeMonth(year, month) >= 0
    decreases month
  {
    if month > 1 {
      MonthsNonNegative(year, month - 1);
    }
  }

  lemma OrdinalOrder(a: Date, b: Date)
    requires IsDate(a) && IsDate(b)
    ensures Earlier(a, b) <==> Ordinal(a) < Ordinal(b)
    ensures a == b <==> Ordinal(a) == Ordinal(b)
  {
    hide Ordinal;
    if Earlier(a, b) {
      OrdinalIncreases(a, b);
    } else if Earlier(b, a) {
      OrdinalIncreases(b, a);
    }
  }

  // ------------------------------------------------------------ directory names

  function Two(n: int): (s: string)
    requires 0 <= n < 100
    ensures |s| == 2
  {
    [Naming.Digit(n / 10), Naming.Digit(n % 10)]
  }

  /** `%Y` pads nothing: only years from 1000 on have four digits. */
  function YearText(year: int): (s: string)
    requires year >= 1
    ensures |s| == 4 <==> 1000 <= year <= 9999
    ensures year < 1000 ==> |s| < 4
  {
    FourDigits(year);
    Naming.Decimal(year)
  }

  lemma FourDigits(year: int)
    requires year >= 1
    ensures 1000 <= year <= 9999 ==> Naming.Decimal(year) == Two(year / 100) + Two(year % 100)
    ensures year < 1000 ==> |Naming.Decimal(year)| < 4
    ensures year > 9999 ==> |Naming.Decimal(year)| > 4
  {
    if year > 9999 {
      assert |Naming.Decimal(year / 1000)| >= 2;
      assert |Naming.Decimal(year / 100)| == |Naming.Decimal(year / 100 / 10)| + 1;
      assert |Naming.Decimal(year / 10)| == |Naming.Decimal(year / 10 / 10)| + 1;
      assert year / 100 / 10 == year / 1000 && year / 10 / 10 == year / 100;
    } else if year >= 1000 {
      var tens := year / 10;
      assert Naming.Decimal(year / 100) == Two(year / 100);
      assert Naming.Decimal(tens) == Naming.Decimal(tens / 10) + [Naming.Digit(tens % 10)];
      assert tens / 10 == year / 100 && tens % 10 == year % 100 / 10;
    } else if year >= 10 {
      assert |Naming.Decimal(year / 10)| <= 2;
    }
  }

  function DirName(d: Date): string
    requires IsDate(d)
  {
    YearText(d.year) + "-" + Two(d.month) + "-" + Two(d.day)
  }

  function TwoOf(a: char, b: char): int
    requires Naming.IsDigit(a) && Naming.IsDigit(b)
  {
    10 * Naming.DigitValue(a) + Naming.DigitValue(b)
  }

  predicate Shaped(s: string) {
    && |s| == 10 && s[4] == '-' && s[7] == '-'
    && Naming.IsDigit(s[0]) && Naming.IsDigit(s[1]) && Naming.IsDigit(s[2]) && Naming.IsDigit(s[3])
    && Naming.IsDigit(s[5]) && Naming.IsDigit(s[6]) && Naming.IsDigit(s[8]) && Naming.IsDigit(s[9])
  }

  /** The shape first, then the calendar: purge deletes what this recognises. */
  function ParseDirName(s: string): (r: Option<Date>)
    ensures r.Some? ==> IsDate(r.value) && r.value.year <= 9999
  {
    if !Shaped(s) then None
    else
      var d := Date(100 * TwoOf(s[0], s[1]) + TwoOf(s[2], s[3]), TwoOf(s[5], s[6]), TwoOf(s[8], s[9]));
      if IsDate(d) then Some(d) else None
  }

  lemma TwoRoundTrip(n: int)
    requires 0 <= n < 100
    ensures var s := Two(n); Naming.IsDigit(s[0]) && Naming.IsDigit(s[1]) && TwoOf(s[0], s[1]) == n
  {
  }

  lemma TwoOfRoundTrip(a: char, b: char)
    requires Naming.IsDigit(a) && Naming.IsDigit(b)
    ensures 0 <= TwoOf(a, b) < 100 && Two(TwoOf(a, b)) == [a, b]
  {
    var n := TwoOf(a, b);
    assert n / 10 == Naming.DigitValue(a) && n % 10 == Naming.DigitValue(b);
    DigitRoundTrip(a);
    DigitRoundTrip(b);
  }

  lemma DigitRoundTrip(c: char)
    requires Naming.IsDigit(c)
    ensures Naming.DigitValue(c) < 10 && Naming.Digit(Naming.DigitValue(c)) == c
  {
  }

  lemma NameLayout(d: Date)
    requires IsDate(d) && 1000 <= d.year <= 9999
    ensures var s := DirName(d);
            && |s| == 10 && s[..2] == Two(d.year / 100) && s[2..4] == Two(d.year % 100) && s[4] == '-'
            && s[5..7] == Two(d.month) && s[7] == '-' && s[8..] == Two(d.day)
  {
    FourDigits(d.year);
    hide Two, Naming.Decimal;
  }

  /** Formatting then parsing gives the date back from the year 1000 on, and nothing before. */
  lemma DirNameRoundTrip(d: Date)
    requires IsDate(d) && d.year <= 9999
    ensures ParseDirName(DirName(d)) == if d.year >= 1000 then Some(d) else None
  {
    if d.year >= 1000 {
      NameLayout(d);
      LayoutParses(DirName(d), d);
    } else {
      assert |DirName(d)| < 10;
    }
  }

  lemma LayoutParses(s: string, d: Date)
    requires IsDate(d) && 1000 <= d.year <= 9999 && |s| == 10
    requires s[..2] == Two(d.year / 100) && s[2..4] == Two(d.year % 100) && s[4] == '-'
    requires s[5..7] == Two(d.month) && s[7] == '-' && s[8..] == Two(d.day)
    ensures ParseDirName(s) == Some(d)
  {
    TwoRoundTrip(d.year / 100);
    TwoRoundTrip(d.year % 100);
    TwoRoundTrip(d.month);
    TwoRoundTrip(d.day);
    hide Two, TwoOf;
    assert s[0] == s[..2][0] && s[1] == s[..2][1] && s[2] == s[2..4][0] && s[3] == s[2..4][1];
    assert s[5] == s[5..7][0] && s[6] == s[5..7][1] && s[8] == s[8..][0] && s[9] == s[8..][1];
  }

  /** Parsing then formatting gives the text back, again from the year 1000 on. */
  lemma ParseRoundTrip(s: string)
    requires ParseDirName(s).Some? && ParseDirName(s).value.year >= 1000
    ensures DirName(ParseDirName(s).value) == s
  {
    var d := ParseDirName(s).value;
    TwoOfRoundTrip(s[0], s[1]);
    TwoOfRoundTrip(s[2], s[3]);
    TwoOfRoundTrip(s[5], s[6]);
    TwoOfRoundTrip(s[8], s[9]);
    var hi, lo := TwoOf(s[0], s[1]), TwoOf(s[2], s[3]);
    assert d.year / 100 == hi && d.year % 100 == lo;
    NameLayout(d);
    FourDigits(d.year);
    assert s == [s[0], s[1]] + [s[2], s[3]] + "-" + [s[5], s[6]] + "-" + [s[8], s[9]];
  }

  // ----------------------------------------------------------------- text order

  /** Lexicographic order of text, character by character. */
  predicate TextLess(a: string, b: string) {
    if b == "" then false
    else if a == "" then true
    else a[0] < b[0] || (a[0] == b[0] && TextLess(a[1..], b[1..]))
  }

  lemma {:induction false} TextLessConcat(a: string, b: string, c: string, d: string)
    requires |a| == |b|
    ensures TextLess(a + c, b + d) <==> TextLess(a, b) || (a == b && TextLess(c, d))
    decreases |a|
  {
    if a == "" {
      assert a + c == c && b + d == d;
    } else {
      assert (a + c)[1..] == a[1..] + c && (b + d)[1..] == b[1..] + d;
      TextLessConcat(a[1..], b[1..], c, d);
      assert a == [a[0]] + a[1..] && b == [b[0]] + b[1..];
    }
  }

  lemma TextLessTwo(m: int, n: int)
    requires 0 <= m < 100 && 0 <= n < 100
    ensures TextLess(Two(m), Two(n)) <==> m < n
    ensures Two(m) == Two(n) <==> m == n
  {
    var a, b := Two(m), Two(n);
    assert a[1..] == [a[1]] && b[1..] == [b[1]];
    assert TextLess(a[1..], b[1..]) <==> a[1] < b[1] by {
      assert a[1..][1..] == "" && b[1..][1..] == "";
    }
    TwoRoundTrip(m);
    TwoRoundTrip(n);
    DigitOrder(m / 10, n / 10);
    DigitOrder(m % 10, n % 10);
  }

  lemma DigitOrder(m: nat, n: nat)
    requires m < 10 && n < 10
    ensures Naming.Digit(m) < Naming.Digit(n) <==> m < n
    ensures Naming.Digit(m) == Naming.Digit(n) <==> m == n
  {
  }

  /** Text order of directory names is calendar order is ordinal order. */
  lemma NameOrder(a: Date, b: Date)
    requires IsDate(a) && IsDate(b) && 1000 <= a.year <= 9999 && 1000 <= b.year <= 9999
    ensures TextLess(DirName(a), DirName(b)) <==> Earlier(a, b)
    ensures TextLess(DirName(a), DirName(b)) <==> Ordinal(a) < Ordinal(b)
    ensures DirName(a) == DirName(b) <==> a == b
  {
    hide Two, Ordinal, TextLess, ParseDirName, Naming.Decimal;
    TextLessTwo(a.year / 100, b.year / 100);
    TextLessTwo(a.year % 100, b.year % 100);
    TextLessTwo(a.month, b.month);
    TextLessTwo(a.day, b.day);
    Dashes();
    FourDigits(a.year);
    FourDigits(b.year);
    var y, z := Two(a.year / 100) + Two(a.year % 100), Two(b.year / 100) + Two(b.year % 100);
    TextLessConcat(Two(a.year / 100), Two(b.year / 100), Two(a.year % 100), Two(b.year % 100));
    assert DirName(a) == y + ("-" + (Two(a.month) + ("-" + Two(a.day))));
    assert DirName(b) == z + ("-" + (Two(b.month) + ("-" + Two(b.day))));
    TextLessConcat(y, z, "-" + (Two(a.month) + ("-" + Two(a.day))), "-" + (Two(b.month) + ("-" + Two(b.day))));
    TextLessConcat("-", "-", Two(a.month) + ("-" + Two(a.day)), Two(b.month) + ("-" + Two(b.day)));
    TextLessConcat(Two(a.month), Two(b.month), "-" + Two(a.day), "-" + Two(b.day));
    TextLessConcat("-", "-", Two(a.day), Two(b.day));
    EqualHalves(a.year, b.year);
    OrdinalOrder(a, b);
    DirNameRoundTrip(a);
    DirNameRoundTrip(b);
  }

  lemma Dashes()
    ensures !TextLess("-", "-")
  {
    assert "-"[1..] == "";
  }

  lemma EqualHalves(m: int, n: int)
    requires 1000 <= m <= 9999 && 1000 <= n <= 9999
    ensures m < n <==> m / 100 < n / 100 || (m / 100 == n / 100 && m % 100 < n % 100)
    ensures Two(m / 100) + Two(m % 100) == Two(n / 100) + Two(n % 100) <==> m == n
  {
    TextLessTwo(m / 100, n / 100);
    TextLessTwo(m % 100, n % 100);
    var a, b := Two(m / 100) + Two(m % 100), Two(n / 100) + Two(n % 100);
    assert a[..2] == Two(m / 100) && a[2..] == Two(m % 100) && b[..2] == Two(n / 100) && b[2..] == Two(n % 100);
  }

  /** Text order is a strict total order. */
  lemma {:induction false} TextLessIsTotal(a: string, b: string)
    ensures TextLess(a, b) || TextLess(b, a) || a == b
    ensures !(TextLess(a, b) && TextLess(b, a)) && !(a == b && TextLess(a, b))
  {
    if a != "" && b != "" {
      TextLessIsTotal(a[1..], b[1..]);
      assert a == [a[0]] + a[1..] && b == [b[0]] + b[1..];
    }
  }

  lemma {:induction false} TextLessIsTransitive(a: string, b: string, c: string)
    requires TextLess(a, b) && TextLess(b, c)
    ensures TextLess(a, c)
    decreases |a|
  {
    if a != "" && a[0] == b[0] && b[0] == c[0] {
      TextLessIsTransitive(a[1..], b[1..], c[1..]);
    }
  }

  // ----------------------------------------------------------------- day numbers

  const FIRST_PADDED_DAY := 364878   // 1 January 1000
  const LAST_DAY := 3652059          // 31 December 9999

  /** A date of the years 1 to 9999, by its ordinal. */
  type Day = d: int | 1 <= d <= LAST_DAY witness 1

  /** A delivery minute within those dates. */
  type Instant = m: int | 1440 <= m < 1440 * (LAST_DAY + 1) witness 1440

  function DayOf(at: Instant): Day { at / 1440 }

  function DateOf(day: int): (d: Date)
    ensures IsDate(d)
  {
    if day <= 1 then Date(1, 1, 1) else NextDay(DateOf(day - 1))
  }

  lemma FirstDay()
    ensures Ordinal(Date(1, 1, 1)) == 1
  {
    FirstYear();
  }

  lemma {:induction false} OrdinalOfDateOf(day: int)
    requires day >= 1
    ensures Ordinal(DateOf(day)) == day
  {
    hide Ordinal, NextDay;
    if day > 1 {
      OrdinalOfDateOf(day - 1);
      OrdinalOfNextDay(DateOf(day - 1));
    } else {
      FirstDay();
    }
  }

  lemma OrdinalIsPositive(d: Date)
    requires IsDate(d)
    ensures Ordinal(d) >= 1
  {
    hide DaysBeforeYear;
    YearsAddUp(1, d.year);
    MonthsNonNegative(d.year, d.month);
    FirstYear();
  }

  lemma FirstYear()
    ensures DaysBeforeYear(1) == 0
  {
  }

  /** Dates and their day numbers are the same thing: adding days is adding numbers. */
  lemma DaysAreDates(d: Date, day: int)
    requires IsDate(d) && day >= 1
    ensures Ordinal(d) >= 1 && DateOf(Ordinal(d)) == d && Ordinal(DateOf(day)) == day
    ensures Earlier(d, DateOf(day)) <==> Ordinal(d) < day
  {
    hide Ordinal;
    OrdinalIsPositive(d);
    OrdinalOfDateOf(Ordinal(d));
    OrdinalOrder(DateOf(Ordinal(d)), d);
    OrdinalOfDateOf(day);
    OrdinalOrder(d, DateOf(day));
  }

  /** The day's directory name has a four-digit year. */
  predicate Padded(day: int) { FIRST_PADDED_DAY <= day <= LAST_DAY }

  lemma PaddedYears(day: Day)
    ensures Padded(day) <==> DateOf(day).year >= 1000
    ensures DateOf(day).year <= 9999
  {
    hide Ordinal, DateOf;
    var first, last := Date(1000, 1, 1), Date(9999, 12, 31);
    MilestoneOrdinals();
    DaysAreDates(first, day);
    DaysAreDates(last, day);
    OrdinalOfDateOf(day);
    OrdinalOrder(DateOf(day), first);
    OrdinalOrder(DateOf(day), last);
  }

  lemma MilestoneOrdinals()
    ensures Ordinal(Date(1000, 1, 1)) == FIRST_PADDED_DAY && Ordinal(Date(9999, 12, 31)) == LAST_DAY
  {
    YearLength(9999);
    assert DaysBeforeYear(1000) == 364877 && DaysBeforeYear(9999) == 3651694;
  }

  /** What the manifest stores for a day, and the archive calls its directory. */
  function DayText(day: int): string { DirName(DateOf(day)) }

  /** The stored text of a day parses, and to that day, if and only if its year has four digits. */
  lemma TextParses(day: Day)
    ensures ParseDirName(DayText(day)) == if Padded(day) then Some(DateOf(day)) else None
  {
    hide ParseDirName, DirName;
    PaddedYears(day);
    DirNameRoundTrip(DateOf(day));
  }

  /** Comparing stored texts compares days, between padded days. */
  lemma TextOrder(a: Day, b: Day)
    requires Padded(a) && Padded(b)
    ensures TextLess(DayText(a), DayText(b)) <==> a < b
    ensures DayText(a) == DayText(b) <==> a == b
  {
    hide DirName, TextLess, Ordinal;
    PaddedYears(a);
    PaddedYears(b);
    OrdinalOfDateOf(a);
    OrdinalOfDateOf(b);
    NameOrder(DateOf(a), DateOf(b));
  }

  /** A padded day shares its text with no other day at all. */
  lemma TextIsUnique(a: Day, b: Day)
    requires Padded(b)
    ensures DayText(a) == DayText(b) <==> a == b
  {
    hide DirName, ParseDirName, TextLess;
    TextParses(a);
    TextParses(b);
    if Padded(a) {
      TextOrder(a, b);
    }
  }

  // --------------------------------------------------------------- the window

  /** An inclusive window of days. */
  datatype Window = Window(first: int, last: int)
  {
    predicate Contains(day: int) { first <= day <= last }
  }

  /** The window of `days` dates ending on `last`. */
  function WindowEnding(last: int, days: int): Window { Window(last - (days - 1), last) }

  /** The range check on stored text, without reparsing it. */
  predicate ContainsText(w: Window, s: string) {
    !TextLess(s, DayText(w.first)) && !TextLess(DayText(w.last), s)
  }

  function Dates(w: Window): seq<Date> {
    seq(Max(0, w.last - w.first + 1), k requires 0 <= k => DateOf(w.first + k))
  }

  /** Checking the number, the date, the stored text and the listed dates all agree. */
  lemma WindowAgrees(w: Window, day: Day)
    requires Padded(w.first) && Padded(w.last) && Padded(day)
    ensures w.Contains(day) <==> ContainsText(w, DayText(day))
    ensures w.Contains(day) <==> !Earlier(DateOf(day), DateOf(w.first)) && !Earlier(DateOf(w.last), DateOf(day))
    ensures w.Contains(day) <==> DateOf(day) in Dates(w)
  {
    hide Ordinal, DirName, TextLess, Earlier, DateOf, DayText;
    TextOrder(day, w.first);
    TextOrder(w.last, day);
    DaysAreDates(DateOf(day), w.first);
    DaysAreDates(DateOf(w.last), day);
    OrdinalOfDateOf(day);
    OrdinalOfDateOf(w.last);
    if w.Contains(day) {
      assert Dates(w)[day - w.first] == DateOf(day);
    }
    if DateOf(day) in Dates(w) {
      var k :| 0 <= k < |Dates(w)| && Dates(w)[k] == DateOf(day);
      OrdinalOfDateOf(w.first + k);
    }
  }

  lemma DateAt(w: Window, k: nat)
    requires k <= w.last - w.first
    ensures |Dates(w)| == w.last - w.first + 1 && Dates(w)[k] == DateOf(w.first + k)
  {
    hide DateOf;
  }

  /** The dates of a window come in calendar order, each once, and there are as many as asked for. */
  lemma DatesInOrder(last: Day, days: nat, i: nat, j: nat)
    requires i < j < days <= last
    ensures var w := WindowEnding(last, days);
            |Dates(w)| == days && Earlier(Dates(w)[i], Dates(w)[j]) && Dates(w)[days - 1] == DateOf(last)
  {
    hide Ordinal, Earlier, DateOf, Dates;
    var w := WindowEnding(last, days);
    DateAt(w, i);
    DateAt(w, j);
    DateAt(w, days - 1);
    OrdinalOfDateOf(w.first + i);
    OrdinalOfDateOf(w.first + j);
    OrdinalOrder(DateOf(w.first + i), DateOf(w.first + j));
  }
}
