/** Calendar dates as the report code handles them.

    The Python code parses a `dd/mm/yyyy` string with `strptime` and writes
    it back with `strftime`, as `yyyy-mm-dd` for the database filter and as
    `yyyy.mm.dd` for the report. Here a date is an already-parsed
    (day, month, year) triple; `Valid` is what `strptime` accepts, and the
    two output layouts are `YearFirst` with separator `-` or `.`. */
module Dates {
  import opened Wrappers

  datatype Date = Date(day: int, month: int, year: int)

  predicate IsLeapYear(year: int) {
    year % 4 == 0 && (year % 100 != 0 || year % 400 == 0)
  }

  function DaysInMonth(month: int, year: int): int
    requires 1 <= month <= 12
  {
    if month == 2 then (if IsLeapYear(year) then 29 else 28)
    else if month == 4 || month == 6 || month == 9 || month == 11 then 30
    else 31
  }

  /** A date of the proleptic Gregorian calendar with a year Python's
      `datetime` can represent. */
  predicate Valid(d: Date) {
    && 1 <= d.year <= 9999
    && 1 <= d.month <= 12
    && 1 <= d.day <= DaysInMonth(d.month, d.year)
  }

  predicate IsDigit(c: char) {
    '0' <= c <= '9'
  }

  predicate AllDigits(s: string) {
    forall i :: 0 <= i < |s| ==> IsDigit(s[i])
  }

  function Pow10(n: nat): nat {
    if n == 0 then 1 else 10 * Pow10(n - 1)
  }

  function DigitChar(v: nat): char
    requires v < 10
  {
    ('0' as int + v) as char
  }

  function DigitValue(c: char): nat
    requires IsDigit(c)
  {
    c as int - '0' as int
  }

  /** The last `width` decimal digits of `n`, zero-padded on the left. */
  function Pad(n: nat, width: nat): (s: string)
    ensures |s| == width
    ensures AllDigits(s)
  {
    if width == 0 then "" else Pad(n / 10, width - 1) + [DigitChar(n % 10)]
  }

  /** The number a string of decimal digits denotes. */
  function DigitsValue(s: string): nat
    requires AllDigits(s)
  {
    if |s| == 0 then 0 else 10 * DigitsValue(s[..|s| - 1]) + DigitValue(s[|s| - 1])
  }

  /** Padding a number that fits in `width` digits and reading the digits
      back gives the number. */
  lemma {:induction false} PadValue(n: nat, width: nat)
    requires n < Pow10(width)
    ensures DigitsValue(Pad(n, width)) == n
  {
    if width > 0 {
      var s := Pad(n, width);
      assert s[..|s| - 1] == Pad(n / 10, width - 1);
      assert DigitValue(s[|s| - 1]) == n % 10;
      PadValue(n / 10, width - 1);
    }
  }

  /** A digit string is the padding of its own value to its own length. */
  lemma {:induction false} DigitsPad(s: string)
    requires AllDigits(s)
    ensures Pad(DigitsValue(s), |s|) == s
  {
    if |s| > 0 {
      var init := s[..|s| - 1];
      var v := DigitsValue(s);
      assert v / 10 == DigitsValue(init);
      assert v % 10 == DigitValue(s[|s| - 1]);
      DigitsPad(init);
      assert s == init + [s[|s| - 1]];
    }
  }

  /** `yyyy<sep>mm<sep>dd`, every field zero-padded. */
  function YearFirst(d: Date, sep: char): (s: string)
    requires Valid(d)
    ensures |s| == 10 && s[4] == sep && s[7] == sep
  {
    Pad(d.year, 4) + [sep] + Pad(d.month, 2) + [sep] + Pad(d.day, 2)
  }

  /** Reads back a `yyyy<sep>mm<sep>dd` string; `None` unless it has exactly
      that layout and denotes a valid date. */
  function ParseYearFirst(s: string, sep: char): Option<Date> {
    if |s| == 10 && s[4] == sep && s[7] == sep
       && AllDigits(s[..4]) && AllDigits(s[5..7]) && AllDigits(s[8..])
    then
      var d := Date(DigitsValue(s[8..]), DigitsValue(s[5..7]), DigitsValue(s[..4]));
      if Valid(d) then Some(d) else None
    else None
  }

  /** Writing a valid date and reading it back gives the same date. */
  lemma YearFirstRoundTrip(d: Date, sep: char)
    requires Valid(d)
    ensures ParseYearFirst(YearFirst(d, sep), sep) == Some(d)
  {
    var s := YearFirst(d, sep);
    assert s[..4] == Pad(d.year, 4);
    assert s[5..7] == Pad(d.month, 2);
    assert s[8..] == Pad(d.day, 2);
    assert Pow10(2) == 100 && Pow10(4) == 10000;
    PadValue(d.year, 4);
    PadValue(d.month, 2);
    PadValue(d.day, 2);
  }

  /** Every string that reads back as a date is that date's layout. */
  lemma ParseYearFirstExact(s: string, sep: char)
    requires ParseYearFirst(s, sep).Some?
    ensures YearFirst(ParseYearFirst(s, sep).value, sep) == s
  {
    var d := ParseYearFirst(s, sep).value;
    DigitsPad(s[..4]);
    DigitsPad(s[5..7]);
    DigitsPad(s[8..]);
    assert s == s[..4] + [sep] + s[5..7] + [sep] + s[8..];
  }

  /** Distinct dates are written differently. */
  lemma YearFirstInjective(d1: Date, d2: Date, sep: char)
    requires Valid(d1) && Valid(d2) && YearFirst(d1, sep) == YearFirst(d2, sep)
    ensures d1 == d2
  {
    YearFirstRoundTrip(d1, sep);
    YearFirstRoundTrip(d2, sep);
  }

  lemma PadYearExample()
    ensures Pad(2024, 4) == "2024"
  {
    assert DigitChar(0) == '0' && DigitChar(2) == '2' && DigitChar(4) == '4';
    assert Pad(2, 1) == Pad(0, 0) + [DigitChar(2)] == "2";
    assert Pad(20, 2) == Pad(2, 1) + [DigitChar(0)] == "20";
    assert Pad(202, 3) == Pad(20, 2) + [DigitChar(2)] == "202";
    assert Pad(2024, 4) == Pad(202, 3) + [DigitChar(4)];
  }

  /** 10/05/2024 is written `2024.05.10`. */
  lemma YearFirstExample()
    ensures YearFirst(Date(10, 5, 2024), '.') == "2024.05.10"
  {
    PadYearExample();
    assert Pad(5, 2) == "05" by {
      assert DigitChar(0) == '0' && DigitChar(5) == '5';
      assert Pad(0, 1) == Pad(0, 0) + [DigitChar(0)] == "0";
      assert Pad(5, 2) == Pad(0, 1) + [DigitChar(5)];
    }
    assert Pad(10, 2) == "10" by {
      assert DigitChar(0) == '0' && DigitChar(1) == '1';
      assert Pad(1, 1) == Pad(0, 0) + [DigitChar(1)] == "1";
      assert Pad(10, 2) == Pad(1, 1) + [DigitChar(0)];
    }
    assert Valid(Date(10, 5, 2024));
    assert YearFirst(Date(10, 5, 2024), '.') == Pad(2024, 4) + ['.'] + Pad(5, 2) + ['.'] + Pad(10, 2);
  }
}
