/** Calendar dates as `datetime.strptime(s, '%Y-%m-%d')` reads them.

    The strict form is the extended calendar-date form of ISO 8601:2004,
    section 4.1.2.2 (`YYYY-MM-DD`). CPython's `_strptime` is more lenient: its
    regular expressions are `\d\d\d\d` for `%Y`, `1[0-2]|0[1-9]|[1-9]` for `%m`
    and `3[01]|[12]\d|0[1-9]|[1-9]| [1-9]` for `%d`, so a month or day may lack
    its leading zero and a day may carry a leading space instead. The whole
    string must be consumed, year 0 is refused by `datetime`, and the day must
    exist in that month. */
module Dates {
  import opened Outcome
  import Text

  datatype Date = Date(year: int, month: int, day: int)

  predicate IsLeapYear(y: int)
  {
    y % 4 == 0 && (y % 100 != 0 || y % 400 == 0)
  }

  function DaysInMonth(y: int, m: int): int
    requires 1 <= m <= 12
  {
    if m == 2 then (if IsLeapYear(y) then 29 else 28)
    else if m == 4 || m == 6 || m == 9 || m == 11 then 30
    else 31
  }

  /** A date `datetime.date` can represent. */
  predicate ValidDate(d: Date)
  {
    1 <= d.year <= 9999 && 1 <= d.month <= 12 && 1 <= d.day <= DaysInMonth(d.year, d.month)
  }

  predicate IsDigit(c: char) { '0' <= c <= '9' }

  function DigitValue(c: char): int
    requires IsDigit(c)
  {
    c as int - '0' as int
  }

  /** Length of the `%m` token at the start of `t` (0 when there is none). The
      format puts `-` after the month, and the regular expression engine
      backtracks through the alternatives until one is followed by `-`. */
  function MonthTokenLength(t: string): nat
  {
    if |t| >= 3 && t[0] == '1' && '0' <= t[1] <= '2' && t[2] == '-' then 2
    else if |t| >= 3 && t[0] == '0' && '1' <= t[1] <= '9' && t[2] == '-' then 2
    else if |t| >= 2 && '1' <= t[0] <= '9' && t[1] == '-' then 1
    else 0
  }

  /** Length of the `%d` token at the start of `t` (0 when there is none).
      Nothing follows `%d` in the format, so the first alternative that
      matches is taken, whatever follows it. */
  function DayTokenLength(t: string): nat
  {
    if |t| >= 2 && t[0] == '3' && '0' <= t[1] <= '1' then 2
    else if |t| >= 2 && '1' <= t[0] <= '2' && IsDigit(t[1]) then 2
    else if |t| >= 2 && t[0] == '0' && '1' <= t[1] <= '9' then 2
    else if |t| >= 1 && '1' <= t[0] <= '9' then 1
    else if |t| >= 2 && t[0] == ' ' && '1' <= t[1] <= '9' then 2
    else 0
  }

  /** The value of a month or day token (a leading space counts as nothing). */
  function TokenValue(t: string): int
    requires 1 <= |t| <= 2
    requires forall i :: 0 <= i < |t| ==> IsDigit(t[i]) || (i == 0 && t[i] == ' ')
    requires IsDigit(t[|t| - 1])
  {
    if |t| == 1 || t[0] == ' ' then DigitValue(t[|t| - 1])
    else 10 * DigitValue(t[0]) + DigitValue(t[1])
  }

  /** `datetime.strptime(s, '%Y-%m-%d')`: `Some` of the date, or `None` where
      Python raises ValueError (only ASCII digits are read as digits). */
  function ParseYmd(s: string): (r: Option<Date>)
    ensures r.Some? ==> ValidDate(r.value)
  {
    if |s| < 5 || !(IsDigit(s[0]) && IsDigit(s[1]) && IsDigit(s[2]) && IsDigit(s[3])) || s[4] != '-' then None
    else
      var year := 1000 * DigitValue(s[0]) + 100 * DigitValue(s[1]) + 10 * DigitValue(s[2]) + DigitValue(s[3]);
      var t := s[5..];
      var ml := MonthTokenLength(t);
      if ml == 0 then None
      else
        var month := TokenValue(t[..ml]);
        var u := t[ml + 1..];
        var dl := DayTokenLength(u);
        if dl == 0 || dl != |u| then None
        else
          var day := TokenValue(u);
          var d := Date(year, month, day);
          if ValidDate(d) then Some(d) else None
  }

  /** Two ASCII digits for 0 <= n < 100. */
  function TwoDigits(n: int): string
    requires 0 <= n < 100
  {
    [Text.DigitChar(n / 10), Text.DigitChar(n % 10)]
  }

  /** The ISO 8601 extended calendar date `YYYY-MM-DD`. */
  function IsoFormat(d: Date): string
    requires ValidDate(d)
  {
    TwoDigits(d.year / 100) + TwoDigits(d.year % 100) + "-" + TwoDigits(d.month) + "-" + TwoDigits(d.day)
  }

  lemma {:induction false} TwoDigitsValue(n: int)
    requires 0 <= n < 100
    ensures var t := TwoDigits(n); IsDigit(t[0]) && IsDigit(t[1]) && 10 * DigitValue(t[0]) + DigitValue(t[1]) == n
  {
  }

  /** Every valid date written in ISO 8601 extended form reads back as itself. */
  lemma {:induction false} ParseIsoRoundTrip(d: Date)
    requires ValidDate(d)
    ensures ParseYmd(IsoFormat(d)) == Some(d)
  {
    var s := IsoFormat(d);
    var hi, lo := TwoDigits(d.year / 100), TwoDigits(d.year % 100);
    TwoDigitsValue(d.year / 100);
    TwoDigitsValue(d.year % 100);
    TwoDigitsValue(d.month);
    TwoDigitsValue(d.day);
    assert s[0] == hi[0] && s[1] == hi[1] && s[2] == lo[0] && s[3] == lo[1] && s[4] == '-';
    YearValue(d.year, hi, lo);
    var t := s[5..];
    assert t == TwoDigits(d.month) + "-" + TwoDigits(d.day);
    var u := t[3..];
    assert u == TwoDigits(d.day);
    ParseYmdParts(s, d);
  }

  /** Four digits written as two pairs read back as the year. */
  lemma {:induction false} YearValue(y: int, hi: string, lo: string)
    requires 1 <= y <= 9999 && hi == TwoDigits(y / 100) && lo == TwoDigits(y % 100)
    ensures 1000 * DigitValue(hi[0]) + 100 * DigitValue(hi[1]) + 10 * DigitValue(lo[0]) + DigitValue(lo[1]) == y
  {
    TwoDigitsValue(y / 100);
    TwoDigitsValue(y % 100);
  }

  /** `ParseYmd` of a four-digit year, a dash, a two-digit month, a dash and a
      two-digit day that is a valid date. */
  lemma {:induction false} ParseYmdParts(s: string, d: Date)
    requires ValidDate(d) && |s| == 10 && s[4] == '-'
    requires IsDigit(s[0]) && IsDigit(s[1]) && IsDigit(s[2]) && IsDigit(s[3])
    requires 1000 * DigitValue(s[0]) + 100 * DigitValue(s[1]) + 10 * DigitValue(s[2]) + DigitValue(s[3]) == d.year
    requires s[5..] == TwoDigits(d.month) + "-" + TwoDigits(d.day)
    ensures ParseYmd(s) == Some(d)
  {
    var t := s[5..];
    TwoDigitsValue(d.month);
    TwoDigitsValue(d.day);
    assert MonthTokenLength(t) == 2;
    assert t[..2] == TwoDigits(d.month);
    var u := t[3..];
    assert u == TwoDigits(d.day);
    assert DayTokenLength(u) == 2;
  }

  /** Python's `<=` on dates: chronological, which for valid dates is the
      lexicographic order on (year, month, day). */
  predicate DateLe(a: Date, b: Date)
  {
    a.year < b.year || (a.year == b.year && (a.month < b.month || (a.month == b.month && a.day <= b.day)))
  }

  /** `start <= d <= end`. */
  predicate InWindow(d: Date, start: Date, end: Date)
  {
    DateLe(start, d) && DateLe(d, end)
  }

  /** The three texts parse as dates and the first lies in the window the
      other two bound. */
  predicate IsSomeInWindow(d: string, startDate: string, endDate: string)
  {
    ParseYmd(d).Some? && ParseYmd(startDate).Some? && ParseYmd(endDate).Some?
    && InWindow(ParseYmd(d).value, ParseYmd(startDate).value, ParseYmd(endDate).value)
  }
}
