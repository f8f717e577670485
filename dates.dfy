/** Calendar dates as `datetime.strptime(text, '%Y-%m-%d')` reads them, and
    the month difference the experience count uses. */
module Dates {
  import opened Json

  datatype Date = Date(year: int, month: int, day: int)

  predicate IsLeap(y: int) {
    y % 4 == 0 && (y % 100 != 0 || y % 400 == 0)
  }

  function DaysInMonth(y: int, m: int): int
    requires 1 <= m <= 12
  {
    if m == 2 then (if IsLeap(y) then 29 else 28)
    else if m == 4 || m == 6 || m == 9 || m == 11 then 30
    else 31
  }

  /** A date `datetime` accepts: year 1 to 9999, a real day of the month. */
  predicate ValidDate(d: Date) {
    1 <= d.year <= 9999 && 1 <= d.month <= 12 && 1 <= d.day <= DaysInMonth(d.year, d.month)
  }

  /** The `%m` directive followed by the literal '-': the alternatives
      `1[0-2]`, `0[1-9]`, `[1-9]` in that order; the value and the number of
      characters taken. At most one alternative can be followed by '-'. */
  function MonthField(s: string): (r: Option<(int, nat)>)
    ensures r.Some? ==> 1 <= r.value.0 <= 12 && 1 <= r.value.1 <= 2 && r.value.1 < |s| && s[r.value.1] == '-'
  {
    if |s| >= 3 && s[0] == '1' && '0' <= s[1] <= '2' && s[2] == '-' then Some((10 + DigitValue(s[1]), 2))
    else if |s| >= 3 && s[0] == '0' && '1' <= s[1] <= '9' && s[2] == '-' then Some((DigitValue(s[1]), 2))
    else if |s| >= 2 && '1' <= s[0] <= '9' && s[1] == '-' then Some((DigitValue(s[0]), 1))
    else None
  }

  /** The `%d` directive at the end of the pattern: the first of `3[01]`,
      `[12]\d`, `0[1-9]`, `[1-9]`, ` [1-9]` that matches is taken. */
  function DayField(s: string): (r: Option<(int, nat)>)
    ensures r.Some? ==> 1 <= r.value.0 <= 31 && 1 <= r.value.1 <= 2 && r.value.1 <= |s|
  {
    if |s| >= 2 && s[0] == '3' && '0' <= s[1] <= '1' then Some((30 + DigitValue(s[1]), 2))
    else if |s| >= 2 && '1' <= s[0] <= '2' && IsDigit(s[1]) then Some((10 * DigitValue(s[0]) + DigitValue(s[1]), 2))
    else if |s| >= 2 && s[0] == '0' && '1' <= s[1] <= '9' then Some((DigitValue(s[1]), 2))
    else if |s| >= 1 && '1' <= s[0] <= '9' then Some((DigitValue(s[0]), 1))
    else if |s| >= 2 && s[0] == ' ' && '1' <= s[1] <= '9' then Some((DigitValue(s[1]), 2))
    else None
  }

  /** `strptime(s, '%Y-%m-%d')`: four digits, '-', a month, '-', a day and
      nothing after it, naming a real date; None where it raises
      ValueError. */
  function ParseYmd(s: string): (r: Option<Date>)
    ensures r.Some? ==> ValidDate(r.value)
  {
    if |s| < 5 || !(IsDigit(s[0]) && IsDigit(s[1]) && IsDigit(s[2]) && IsDigit(s[3])) || s[4] != '-' then None
    else
      match MonthField(s[5..])
      case None => None
      case Some(month) =>
        var rest := s[5 + month.1 + 1..];
        match DayField(rest)
        case None => None
        case Some(day) =>
          var year := 1000 * DigitValue(s[0]) + 100 * DigitValue(s[1]) + 10 * DigitValue(s[2]) + DigitValue(s[3]);
          var d := Date(year, month.0, day.0);
          if day.1 != |rest| || !ValidDate(d) then None else Some(d)
  }

  function Digit(n: int): char
    requires 0 <= n <= 9
  {
    '0' + n as char
  }

  /** The zero-padded ISO form of a date, as `strftime('%Y-%m-%d')` writes it. */
  function FormatYmd(d: Date): (s: string)
    requires ValidDate(d)
    ensures |s| == 10
  {
    [Digit(d.year / 1000), Digit(d.year / 100 % 10), Digit(d.year / 10 % 10), Digit(d.year % 10), '-',
     Digit(d.month / 10), Digit(d.month % 10), '-', Digit(d.day / 10), Digit(d.day % 10)]
  }

  /** Every real date written in ISO form is read back as itself. */
  lemma ParseFormat(d: Date)
    requires ValidDate(d)
    ensures ParseYmd(FormatYmd(d)) == Some(d)
  {
    var s := FormatYmd(d);
    DigitRoundTrip(d.year / 1000);
    DigitRoundTrip(d.year / 100 % 10);
    DigitRoundTrip(d.year / 10 % 10);
    DigitRoundTrip(d.year % 10);
    YearDigits(d.year);
    MonthFieldOf(d.month, s[5..]);
    var rest := s[8..];
    assert s[5 + 2 + 1..] == rest;
    DayFieldOf(d.day, rest);
  }

  lemma DigitRoundTrip(n: int)
    requires 0 <= n <= 9
    ensures IsDigit(Digit(n)) && DigitValue(Digit(n)) == n
  {
  }

  lemma YearDigits(y: int)
    requires 0 <= y <= 9999
    ensures 1000 * (y / 1000) + 100 * (y / 100 % 10) + 10 * (y / 10 % 10) + y % 10 == y
  {
    var a, b, c := y / 10, y / 100, y / 1000;
    assert y == 10 * a + y % 10;
    assert b == a / 10;
    assert a == 10 * b + a % 10;
    assert c == b / 10;
    assert b == 10 * c + b % 10;
    assert b % 10 == y / 100 % 10 && a % 10 == y / 10 % 10;
  }

  lemma MonthFieldOf(m: int, s: string)
    requires 1 <= m <= 12 && |s| >= 3 && s[0] == Digit(m / 10) && s[1] == Digit(m % 10) && s[2] == '-'
    ensures MonthField(s) == Some((m, 2))
  {
    DigitRoundTrip(m % 10);
  }

  lemma DayFieldOf(d: int, s: string)
    requires 1 <= d <= 31 && |s| == 2 && s[0] == Digit(d / 10) && s[1] == Digit(d % 10)
    ensures DayField(s) == Some((d, 2))
  {
    DigitRoundTrip(d / 10);
    DigitRoundTrip(d % 10);
  }

  /** `(end.year - start.year) * 12 + (end.month - start.month)`: days are
      ignored. */
  function MonthsBetween(start: Date, end: Date): int {
    (end.year - start.year) * 12 + (end.month - start.month)
  }
}
