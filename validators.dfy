/** The two argument validators of main_reader/helper.py: check_limit and check_date.
    Each either yields its value or stops the program with a fixed message (SystemExit). */
module Validators {
  import opened Results
  import opened Strings
  import opened Calendar

  const LimitNotANumber := "The argument \"limit\" should be a number"
  const LimitNotPositive := "The argument \"limit\" should be greater than 0"
  const DateFormatMessage := "Please, enter the date in \"YYYYMMDD\" format"

  predicate IsSign(c: char)
  {
    c == '+' || c == '-'
  }

  /** Python's int() on a string: an optional sign followed by one or more decimal digits. */
  function ParseInt(s: string): (r: Option<int>)
    ensures r.Some? <==> (|s| > 0 && AllDigits(s)) || (|s| > 1 && IsSign(s[0]) && AllDigits(s[1..]))
  {
    if |s| > 0 && IsSign(s[0]) then
      if |s| > 1 && AllDigits(s[1..]) then
        var magnitude: int := DigitsValue(s[1..]);
        Some(if s[0] == '-' then -magnitude else magnitude)
      else None
    else if |s| > 0 && AllDigits(s) then Some(DigitsValue(s))
    else None
  }

  /** check_limit (helper.py:19-30): int(), then reject values below 1. */
  function CheckLimit(s: string): (r: Result<int, string>)
    ensures r.Success? ==> r.value >= 1 && ParseInt(s) == Some(r.value)
    ensures r == Failure(LimitNotANumber) <==> ParseInt(s).None?
    ensures r == Failure(LimitNotPositive) <==> ParseInt(s).Some? && ParseInt(s).value < 1
    ensures r.Failure? ==> r.error == LimitNotANumber || r.error == LimitNotPositive
  {
    match ParseInt(s)
    case None => Failure(LimitNotANumber)
    case Some(n) => if n < 1 then Failure(LimitNotPositive) else Success(n)
  }

  /** Every positive integer, written in decimal with or without a plus sign, is accepted
      as exactly that limit. */
  lemma CheckLimitAcceptsPositive(n: nat)
    requires n >= 1
    ensures CheckLimit(Decimal(n)) == Success(n)
    ensures CheckLimit("+" + Decimal(n)) == Success(n)
  {
    DecimalRoundTrip(n);
    assert ("+" + Decimal(n))[1..] == Decimal(n);
  }

  /** Zero and every negative integer are numbers, but are refused as a limit. */
  lemma CheckLimitRejectsNonPositive(n: nat)
    ensures CheckLimit(Decimal(n)) == Failure(LimitNotPositive) <==> n == 0
    ensures CheckLimit("-" + Decimal(n)) == Failure(LimitNotPositive)
  {
    DecimalRoundTrip(n);
    assert ("-" + Decimal(n))[1..] == Decimal(n);
  }

  lemma CheckLimitExamples()
    ensures CheckLimit("2") == Success(2)
    ensures CheckLimit("one") == Failure(LimitNotANumber)
    ensures CheckLimit("-1") == Failure(LimitNotPositive)
    ensures CheckLimit("0") == Failure(LimitNotPositive)
    ensures CheckLimit("") == Failure(LimitNotANumber)
  {
    assert !IsDigit('o');
    assert "-1"[1..] == "1";
  }

  // strptime(date, '%Y%m%d') matches the pattern
  //   (\d\d\d\d)(1[0-2]|0[1-9]|[1-9])(3[01]|[12]\d|0[1-9]|[1-9]| [1-9])
  // at the start of the string, keeps the first match it finds, and fails when text is
  // left over or when the fields do not make a date. For this pattern the first match
  // spans the whole string exactly when the text after the year splits into a month
  // token and a day token, the two-character month being tried first.

  predicate IsMonthToken(t: string)
  {
    || (|t| == 1 && '1' <= t[0] <= '9')
    || (|t| == 2 && t[0] == '0' && '1' <= t[1] <= '9')
    || (|t| == 2 && t[0] == '1' && '0' <= t[1] <= '2')
  }

  predicate IsDayToken(t: string)
  {
    || (|t| == 1 && '1' <= t[0] <= '9')
    || (|t| == 2 && t[0] == '3' && (t[1] == '0' || t[1] == '1'))
    || (|t| == 2 && (t[0] == '1' || t[0] == '2') && IsDigit(t[1]))
    || (|t| == 2 && t[0] == '0' && '1' <= t[1] <= '9')
    || (|t| == 2 && t[0] == ' ' && '1' <= t[1] <= '9')
  }

  function MonthValue(t: string): (m: int)
    requires IsMonthToken(t)
    ensures 1 <= m <= 12
  {
    if |t| == 1 then DigitValue(t[0]) else DigitValue(t[0]) * 10 + DigitValue(t[1])
  }

  function DayValue(t: string): (d: int)
    requires IsDayToken(t)
    ensures 1 <= d <= 31
  {
    if |t| == 1 then DigitValue(t[0])
    else if t[0] == ' ' then DigitValue(t[1])
    else DigitValue(t[0]) * 10 + DigitValue(t[1])
  }

  /** Month and day read from the text after the year, or None where no split into a
      month token and a day token covers all of it. */
  function MonthDay(rest: string): (r: Option<(int, int)>)
    requires |rest| >= 2
    ensures r.Some? ==> 1 <= r.value.0 <= 12 && 1 <= r.value.1 <= 31
  {
    if IsMonthToken(rest[..2]) && IsDayToken(rest[2..]) then Some((MonthValue(rest[..2]), DayValue(rest[2..])))
    else if IsMonthToken(rest[..1]) && IsDayToken(rest[1..]) then Some((MonthValue(rest[..1]), DayValue(rest[1..])))
    else None
  }

  /** The date strptime(s, '%Y%m%d') reads from s, or None where it raises ValueError. */
  function ParseYmd(s: string): (r: Option<Date>)
    ensures r.Some? ==> ValidDate(r.value)
    ensures r.Some? ==> 6 <= |s| <= 8 && AllDigits(s[..4]) && r.value.year == DigitsValue(s[..4])
  {
    if |s| < 6 || |s| > 8 || !AllDigits(s[..4]) then None
    else
      var year, fields := DigitsValue(s[..4]), MonthDay(s[4..]);
      if fields.Some? && ValidDate(Date(year, fields.value.0, fields.value.1)) then
        Some(Date(year, fields.value.0, fields.value.1))
      else None
  }

  /** check_date (helper.py:33-39): true for a date strptime accepts, else the format message. */
  function CheckDate(s: string): (r: Result<bool, string>)
    ensures r.Success? <==> ParseYmd(s).Some?
    ensures r.Success? ==> r.value
    ensures r.Failure? ==> r.error == DateFormatMessage
  {
    if ParseYmd(s).Some? then Success(true) else Failure(DateFormatMessage)
  }

  /** A two-digit string is a month token exactly when it spells 01 to 12, and a day token
      exactly when it spells 01 to 31; either token's value is then the number it spells. */
  lemma TwoDigitTokens(t: string)
    requires |t| == 2 && AllDigits(t)
    ensures IsMonthToken(t) <==> 1 <= DigitsValue(t) <= 12
    ensures IsMonthToken(t) ==> MonthValue(t) == DigitsValue(t)
    ensures IsDayToken(t) <==> 1 <= DigitsValue(t) <= 31
    ensures IsDayToken(t) ==> DayValue(t) == DigitsValue(t)
  {
    DigitsValueSnoc([], t[0]);
    assert [] + [t[0]] == [t[0]] == t[..1];
    var a, b := DigitValue(t[0]), DigitValue(t[1]);
    assert DigitsValue(t) == a * 10 + b;
    assert t[0] == '0' <==> a == 0;
    assert t[0] == '1' <==> a == 1;
    assert t[0] == '2' <==> a == 2;
    assert t[0] == '3' <==> a == 3;
    assert t[1] == '0' <==> b == 0;
    assert t[1] == '1' <==> b == 1;
    assert '1' <= t[1] <= '9' <==> 1 <= b;
    assert '0' <= t[1] <= '2' <==> b <= 2;
    assert t[0] != ' ';
  }

  /** The cache's date key of any date is accepted by check_date and read back as that date. */
  lemma DateKeyRoundTrip(d: Date)
    requires ValidDate(d)
    ensures ParseYmd(DateKey(d)) == Some(d)
    ensures CheckDate(DateKey(d)) == Success(true)
  {
    var k := DateKey(d);
    var rest := k[4..];
    assert rest[..2] == k[4..6] && rest[2..] == k[6..];
    TwoDigitTokens(k[4..6]);
    TwoDigitTokens(k[6..]);
    assert MonthDay(rest) == Some((d.month, d.day));
  }

  /** On eight-digit strings check_date accepts exactly the strings whose YYYY, MM and DD
      fields name a real calendar date. */
  lemma EightDigitDates(s: string)
    requires |s| == 8 && AllDigits(s)
    ensures CheckDate(s).Success? <==> ValidDate(Date(DigitsValue(s[..4]), DigitsValue(s[4..6]), DigitsValue(s[6..])))
  {
    var rest := s[4..];
    assert rest[..2] == s[4..6] && rest[2..] == s[6..];
    assert AllDigits(s[..4]);
    TwoDigitTokens(s[4..6]);
    TwoDigitTokens(s[6..]);
    assert !IsDayToken(rest[1..]);
  }

  lemma CheckDateAcceptsExample()
    ensures CheckDate("20220919") == Success(true)
  {
    DateKeyRoundTrip(Date(2022, 9, 19));
    assert DateKey(Date(2022, 9, 19)) == "20220919";
  }

  lemma CheckDateRejectsExamples()
    ensures CheckDate("55555555") == Failure(DateFormatMessage)
    ensures CheckDate("2022-09-19") == Failure(DateFormatMessage)
    ensures CheckDate("20230229") == Failure(DateFormatMessage)
  {
    EightDigitDates("55555555");
    EightDigitDates("20230229");
  }

  /** strptime also reads a one-digit month: "2022919" is 19 September 2022. */
  lemma ShortMonthExample()
    ensures ParseYmd("2022919") == Some(Date(2022, 9, 19))
  {
    assert "2022919"[4..] == "919";
    assert "2022919"[..4] == "2022" == FourDigits(2022);
    assert "919"[..2] == "91" && "919"[..1] == "9" && "919"[1..] == "19";
    assert MonthDay("919") == Some((9, 19));
  }
}
