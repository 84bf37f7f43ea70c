/** The proleptic Gregorian calendar of Python's datetime module, restricted to what the
    reader uses: validity of a date, its weekday, and the two strftime formats the
    reader applies ("%Y%m%d" for the cache date key, "%a, %d %B, %Y" for display). */
module Calendar {
  import opened Strings

  datatype Date = Date(year: int, month: int, day: int)

  /** A parsed timestamp; only its date part is ever formatted by the reader. */
  datatype DateTime = DateTime(date: Date, hour: int, minute: int, second: int)

  predicate IsLeapYear(y: int)
  {
    y % 4 == 0 && (y % 100 != 0 || y % 400 == 0)
  }

  function DaysInMonth(y: int, m: int): (n: int)
    requires 1 <= m <= 12
    ensures 28 <= n <= 31
    ensures n == 29 <==> m == 2 && IsLeapYear(y)
    ensures n == 28 <==> m == 2 && !IsLeapYear(y)
    ensures n == 30 <==> m in {4, 6, 9, 11}
  {
    if m == 2 then (if IsLeapYear(y) then 29 else 28)
    else [31, 28, 31, 30, 31, 30, 31, 31, 30, 31, 30, 31][m - 1]
  }

  /** Dates that datetime.date accepts: MINYEAR 1 to MAXYEAR 9999. */
  predicate ValidDate(d: Date)
  {
    1 <= d.year <= 9999 && 1 <= d.month <= 12 && 1 <= d.day <= DaysInMonth(d.year, d.month)
  }

  function DaysInYear(y: int): int
  {
    if IsLeapYear(y) then 366 else 365
  }

  /** Days in the years before y, counted from 0001-01-01. */
  function DaysBeforeYear(y: int): int
    requires y >= 1
  {
    var p := y - 1;
    p * 365 + p / 4 - p / 100 + p / 400
  }

  /** Days in the months of year y before month m. */
  function DaysBeforeMonth(y: int, m: int): int
    requires 1 <= m <= 12
  {
    [0, 31, 59, 90, 120, 151, 181, 212, 243, 273, 304, 334][m - 1]
      + (if m > 2 && IsLeapYear(y) then 1 else 0)
  }

  /** The day number of d, 0001-01-01 being day 1 (date.toordinal). */
  function Ordinal(d: Date): (o: int)
    requires ValidDate(d)
    ensures o >= 1
    ensures d == Date(1, 1, 1) ==> o == 1
  {
    DaysBeforeYear(d.year) + DaysBeforeMonth(d.year, d.month) + d.day
  }

  /** The weekday of d, Monday being 0 (date.weekday). */
  function Weekday(d: Date): (w: nat)
    requires ValidDate(d)
    ensures w < 7
  {
    (Ordinal(d) + 6) % 7
  }

  /** The calendar day after d. */
  function NextDay(d: Date): (e: Date)
    requires ValidDate(d) && d != Date(9999, 12, 31)
    ensures ValidDate(e)
  {
    if d.day < DaysInMonth(d.year, d.month) then Date(d.year, d.month, d.day + 1)
    else if d.month < 12 then Date(d.year, d.month + 1, 1)
    else Date(d.year + 1, 1, 1)
  }

  lemma DaysBeforeNextYear(y: int)
    requires y >= 1
    ensures DaysBeforeYear(y + 1) == DaysBeforeYear(y) + DaysInYear(y)
  {
    var p := y - 1;
    StepBy4(p);
    StepBy100(p);
    StepBy400(p);
    CenturyDivisors(y);
    var a, b, c := p / 4, p / 100, p / 400;
    var a', b', c' := y / 4, y / 100, y / 400;
    assert DaysBeforeYear(y + 1) == y * 365 + a' - b' + c';
    assert DaysBeforeYear(y) == p * 365 + a - b + c;
  }

  lemma StepBy4(p: int)
    requires p >= 0
    ensures (p + 1) / 4 == p / 4 + (if (p + 1) % 4 == 0 then 1 else 0)
  {
    var q, r := p / 4, p % 4;
    assert p == 4 * q + r;
    if r < 3 {
      assert p + 1 == 4 * q + (r + 1);
    } else {
      assert p + 1 == 4 * (q + 1);
    }
  }

  lemma StepBy100(p: int)
    requires p >= 0
    ensures (p + 1) / 100 == p / 100 + (if (p + 1) % 100 == 0 then 1 else 0)
  {
    var q, r := p / 100, p % 100;
    assert p == 100 * q + r;
    if r < 99 {
      assert p + 1 == 100 * q + (r + 1);
    } else {
      assert p + 1 == 100 * (q + 1);
    }
  }

  lemma StepBy400(p: int)
    requires p >= 0
    ensures (p + 1) / 400 == p / 400 + (if (p + 1) % 400 == 0 then 1 else 0)
  {
    var q, r := p / 400, p % 400;
    assert p == 400 * q + r;
    if r < 399 {
      assert p + 1 == 400 * q + (r + 1);
    } else {
      assert p + 1 == 400 * (q + 1);
    }
  }

  /** A multiple of 400 is a multiple of 100, and a multiple of 100 one of 4. */
  lemma CenturyDivisors(y: int)
    ensures y % 400 == 0 ==> y % 100 == 0
    ensures y % 100 == 0 ==> y % 4 == 0
  {
    if y % 400 == 0 {
      var k := 4 * (y / 400);
      assert y == 100 * k;
      MultipleOf100(k);
    }
    if y % 100 == 0 {
      var k := 25 * (y / 100);
      assert y == 4 * k;
      MultipleOf4(k);
    }
  }

  lemma MultipleOf100(k: int)
    ensures (100 * k) % 100 == 0
  {
  }

  lemma MultipleOf4(k: int)
    ensures (4 * k) % 4 == 0
  {
  }

  /** Consecutive calendar days have consecutive day numbers. */
  lemma NextDayOrdinal(d: Date)
    requires ValidDate(d) && d != Date(9999, 12, 31)
    ensures Ordinal(NextDay(d)) == Ordinal(d) + 1
  {
    if d.day == DaysInMonth(d.year, d.month) && d.month == 12 {
      DaysBeforeNextYear(d.year);
    }
  }

  /** The weekday advances by one from each day to the next, wrapping Sunday to Monday. */
  lemma WeekdayOfNextDay(d: Date)
    requires ValidDate(d) && d != Date(9999, 12, 31)
    ensures Weekday(NextDay(d)) == (Weekday(d) + 1) % 7
  {
    NextDayOrdinal(d);
    var o, e := Ordinal(d), NextDay(d);
    assert Weekday(e) == (o + 7) % 7;
    assert Weekday(d) == (o + 6) % 7;
    ModSeven(o);
  }

  lemma ModSeven(o: int)
    ensures (o + 7) % 7 == ((o + 6) % 7 + 1) % 7
  {
  }

  /** strftime's %a in the C locale, indexed by Weekday. */
  const WeekdayAbbreviations: seq<string> := ["Mon", "Tue", "Wed", "Thu", "Fri", "Sat", "Sun"]

  /** strftime's %B in the C locale, indexed by month - 1. */
  const MonthNames: seq<string> :=
    ["January", "February", "March", "April", "May", "June", "July",
     "August", "September", "October", "November", "December"]

  /** strftime('%Y%m%d'): the cache's date key. */
  function DateKey(d: Date): (k: string)
    requires ValidDate(d)
    ensures |k| == 8 && AllDigits(k)
    ensures DigitsValue(k[..4]) == d.year && DigitsValue(k[4..6]) == d.month && DigitsValue(k[6..]) == d.day
  {
    var y, m, dd := FourDigits(d.year), TwoDigits(d.month), TwoDigits(d.day);
    var k := y + m + dd;
    assert k[..4] == y && k[4..6] == m && k[6..] == dd;
    k
  }

  /** strftime("%a, %d %B, %Y"), the one display format of an article's date: three letters
      of weekday, the punctuation and the two- and four-digit fields take 14 characters,
      the month name the rest. */
  function LongDate(d: Date): (s: string)
    requires ValidDate(d)
    ensures |s| == 14 + |MonthNames[d.month - 1]|
  {
    WeekdayAbbreviations[Weekday(d)] + ", " + TwoDigits(d.day) + " "
      + MonthNames[d.month - 1] + ", " + FourDigits(d.year)
  }

  /** The display date is the weekday abbreviation, ", ", the zero-padded day, a space, the
      full month name, ", " and the four-digit year, and it holds no line break. */
  lemma LongDateShape(d: Date)
    requires ValidDate(d)
    ensures var s := LongDate(d);
      && s[..3] == WeekdayAbbreviations[Weekday(d)]
      && s[3..5] == ", "
      && s[5..7] == TwoDigits(d.day)
      && s[7] == ' '
      && s[8..|s| - 6] == MonthNames[d.month - 1]
      && s[|s| - 6..|s| - 4] == ", "
      && s[|s| - 4..] == FourDigits(d.year)
      && '\n' !in s
  {
    var w, dd, m, y := WeekdayAbbreviations[Weekday(d)], TwoDigits(d.day), MonthNames[d.month - 1], FourDigits(d.year);
    NamesAreOneLine(Weekday(d), d.month - 1);
    assert '\n' !in dd && '\n' !in y by {
      assert AllDigits(dd) && AllDigits(y);
    }
    var s1 := w + ", ";
    var s2 := s1 + dd;
    var s3 := s2 + " " + m + ", ";
    var s := s3 + y;
    assert LongDate(d) == s;
    assert |w| == 3;
    assert s[..3] == s1[..3] == w;
    assert s2[5..7] == dd;
    assert s[5..7] == s2[5..7];
    assert s[3..5] == s1[3..5] == ", ";
    assert s[7] == s3[7] == ' ';
    assert s[8..|s| - 6] == s3[8..|s3| - 2] == m;
    assert s[|s| - 6..|s| - 4] == s3[|s3| - 2..] == ", ";
    assert s[|s| - 4..] == y;
  }

  lemma NamesAreOneLine(w: int, m: int)
    requires 0 <= w < 7 && 0 <= m < 12
    ensures '\n' !in WeekdayAbbreviations[w] && '\n' !in MonthNames[m]
  {
  }

  /** 5 September 2022 is a Monday. */
  lemma WeekdayExample()
    ensures Weekday(Date(2022, 9, 5)) == 0
  {
    assert 2021 / 4 == 505 && 2021 / 100 == 20 && 2021 / 400 == 5;
    assert DaysBeforeYear(2022) == 738155;
    assert DaysBeforeMonth(2022, 9) == 243;
    assert Ordinal(Date(2022, 9, 5)) == 738403;
  }

  lemma PaddingExample()
    ensures TwoDigits(5) == "05" && FourDigits(2022) == "2022"
  {
    assert TwoDigits(5) == "05";
  }

  lemma LongDateExamples()
    ensures LongDate(Date(2022, 9, 5)) == "Mon, 05 September, 2022"
  {
    WeekdayExample();
    PaddingExample();
    var w, m := WeekdayAbbreviations[0], MonthNames[8];
    assert w == "Mon" && m == "September";
    assert LongDate(Date(2022, 9, 5)) == w + ", " + "05" + " " + m + ", " + "2022";
  }
}
