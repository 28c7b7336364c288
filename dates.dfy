/**
 * Calendar dates as the app reads them with `new Date(row[1])`: a stored
 * `yyyy-mm-dd` string becomes a (year, month, day) triple or an invalid date.
 * Month keys `YYYY-MM`, the day count used for "30 days ago", and `parseInt`
 * for the month filter live here too.
 */
module Dates {
  import opened Wrappers
  import opened Text

  /** A parsed date, or JavaScript's Invalid Date (whose getters give NaN). */
  datatype Date = Day(year: int, month: int, day: int) | Invalid

  predicate IsLeapYear(y: int) { y % 4 == 0 && (y % 100 != 0 || y % 400 == 0) }

  function DaysInMonth(y: int, m: int): (n: int)
    requires 1 <= m <= 12
    ensures 28 <= n <= 31
  {
    if m == 2 then (if IsLeapYear(y) then 29 else 28)
    else if m == 4 || m == 6 || m == 9 || m == 11 then 30
    else 31
  }

  predicate IsCalendarDay(y: int, m: int, d: int)
  {
    1 <= m <= 12 && 1 <= d <= DaysInMonth(y, m)
  }

  predicate ValidDate(d: Date)
  {
    d.Day? && IsCalendarDay(d.year, d.month, d.day)
  }

  /** The shape `^\d{4}-\d{2}-\d{2}$`. */
  predicate IsIsoShape(s: string)
  {
    |s| == 10 && AllDigits(s[..4]) && s[4] == '-' && AllDigits(s[5..7]) && s[7] == '-'
    && AllDigits(s[8..])
  }

  /** `new Date(s)` for the ISO date strings the app stores and compares. */
  function ParseDate(s: string): (d: Date)
    ensures d.Day? ==> IsIsoShape(s) && ValidDate(d) && 0 <= d.year <= 9999
    ensures IsIsoShape(s) && IsCalendarDay(DigitsValue(s[..4]), DigitsValue(s[5..7]), DigitsValue(s[8..])) ==> d.Day?
  {
    if !IsIsoShape(s) then Invalid
    else
      var y, m, dd := DigitsValue(s[..4]), DigitsValue(s[5..7]), DigitsValue(s[8..]);
      assert y <= 9999 by { DigitsValueBound(s[..4]); }
      if IsCalendarDay(y, m, dd) then Day(y, m, dd) else Invalid
  }

  lemma {:induction false} DigitsValueBound(s: string)
    requires AllDigits(s)
    ensures DigitsValue(s) < Pow10(|s|)
  {
    if s != [] {
      DigitsValueBound(s[..|s| - 1]);
    }
  }

  /** Exactly two digits, zero-padded. */
  function Digits2(n: nat): (s: string)
    requires n < 100
    ensures |s| == 2 && AllDigits(s) && DigitsValue(s) == n
  {
    var s := [DigitChar(n / 10), DigitChar(n % 10)];
    assert s[..1] == [DigitChar(n / 10)];
    assert s[..1][..0] == [];
    assert DigitsValue(s[..1]) == n / 10;
    s
  }

  /** Exactly four digits, zero-padded. */
  function Digits4(n: nat): (s: string)
    requires n < 10000
    ensures |s| == 4 && AllDigits(s) && DigitsValue(s) == n
  {
    var s := Digits2(n / 100) + Digits2(n % 100);
    assert s[..3] == Digits2(n / 100) + [s[2]];
    assert s[..2] == Digits2(n / 100);
    assert Digits2(n / 100)[..1] == [Digits2(n / 100)[0]];
    s
  }

  /** A two-digit string is the zero-padded rendering of its own value. */
  lemma TwoDigits(s: string)
    requires |s| == 2 && AllDigits(s)
    ensures DigitsValue(s) < 100 && Digits2(DigitsValue(s)) == s
  {
    assert s[..1] == [s[0]];
    assert s[..1][..0] == [];
    var a, b := DigitVal(s[0]), DigitVal(s[1]);
    assert DigitsValue(s[..1]) == a;
    assert s[..|s| - 1] == s[..1];
    assert DigitsValue(s) == a * 10 + b;
    assert (a * 10 + b) / 10 == a && (a * 10 + b) % 10 == b;
    assert DigitChar(a) == s[0] && DigitChar(b) == s[1];
  }

  /** The ISO `yyyy-mm-dd` rendering of a date (what a date input yields). */
  function FormatIso(d: Date): (s: string)
    requires ValidDate(d) && 0 <= d.year <= 9999
    ensures IsIsoShape(s)
  {
    Digits4(d.year) + "-" + Digits2(d.month) + "-" + Digits2(d.day)
  }

  /** Parsing a rendered date gives the date back. */
  lemma ParseFormatIso(d: Date)
    requires ValidDate(d) && 0 <= d.year <= 9999
    ensures ParseDate(FormatIso(d)) == d
  {
    var s := FormatIso(d);
    assert s[..4] == Digits4(d.year);
    assert s[5..7] == Digits2(d.month);
    assert s[8..] == Digits2(d.day);
  }

  /** Every string that parses to a date is that date's rendering. */
  lemma FormatParseIso(s: string)
    requires ParseDate(s).Day?
    ensures FormatIso(ParseDate(s)) == s
  {
    var d := ParseDate(s);
    TwoDigits(s[5..7]);
    TwoDigits(s[8..]);
    FourDigits(s[..4]);
    assert s == s[..4] + "-" + s[5..7] + "-" + s[8..];
  }

  lemma FourDigits(s: string)
    requires |s| == 4 && AllDigits(s)
    ensures DigitsValue(s) < 10000 && Digits4(DigitsValue(s)) == s
  {
    var n := DigitsValue(s);
    var hi, lo := s[..2], s[2..];
    assert s[..3][..2] == hi;
    TwoDigits(hi);
    TwoDigits(lo);
    assert DigitsValue(lo) == DigitVal(s[2]) * 10 + DigitVal(s[3]) by {
      assert lo[..1] == [s[2]];
      assert lo[..1][..0] == [];
    }
    assert DigitsValue(s[..3]) == DigitsValue(hi) * 10 + DigitVal(s[2]);
    assert n == DigitsValue(hi) * 100 + DigitsValue(lo);
    assert n / 100 == DigitsValue(hi) && n % 100 == DigitsValue(lo);
    assert s == hi + lo;
  }

  /**
   * Days since 1970-01-01 of a (year, month, day), proleptic Gregorian; a day
   * past the end of a month counts on into the next one, as `setDate` does.
   */
  function DayNumber(y: int, m: int, d: int): int
    requires 1 <= m <= 12
  {
    var y' := if m <= 2 then y - 1 else y;
    var era := y' / 400;
    var yoe := y' - era * 400;
    var mp := (m + 9) % 12;
    var doy := (153 * mp + 2) / 5 + d - 1;
    var doe := yoe * 365 + yoe / 4 - yoe / 100 + doy;
    era * 146097 + doe - 719468
  }

  /** A calendar month: `year` and `month` in 1..12. */
  datatype MonthKey = MonthKey(year: int, month: int)

  predicate ValidMonth(k: MonthKey) { 1 <= k.month <= 12 }

  /** Months counted from January of year 0, so consecutive months differ by one. */
  function MonthIndex(k: MonthKey): int { k.year * 12 + k.month - 1 }

  /** The month with a given index: `new Date(y, m - i, 1)` normalises this way. */
  function MonthAt(i: int): (k: MonthKey)
    ensures ValidMonth(k) && MonthIndex(k) == i
  {
    MonthKey(i / 12, i % 12 + 1)
  }

  lemma MonthAtIndex(k: MonthKey)
    requires ValidMonth(k)
    ensures MonthAt(MonthIndex(k)) == k
  {
  }

  /** The month a date falls in, when it is a date at all. */
  function MonthOf(d: Date): (k: MonthKey)
    requires d.Day?
  {
    MonthKey(d.year, d.month)
  }

  /** `date.getFullYear() === k.year && date.getMonth() + 1 === k.month` (false for NaN). */
  predicate InMonth(d: Date, k: MonthKey)
  {
    d.Day? && d.year == k.year && d.month == k.month
  }

  /** The key `${year}-${String(month).padStart(2, "0")}` of a month. */
  function KeyString(k: MonthKey): string
    requires ValidMonth(k) && k.year >= 0
  {
    NatToString(k.year) + "-" + PadStart2(NatToString(k.month))
  }

  /** `parseInt(s)` in base ten: leading white space, a sign, then a digit prefix. */
  function ParseInt(s: string): Option<int>
  {
    var t := TrimStart(s);
    var neg := |t| > 0 && t[0] == '-';
    var body := if |t| > 0 && (t[0] == '-' || t[0] == '+') then t[1..] else t;
    var digits := LeadingDigits(body);
    if digits == [] then None
    else
      var v: int := DigitsValue(digits);
      Some(if neg then -v else v)
  }

  /** The `YYYY-MM` month filter: `const [y, m] = filter.split("-")`, each through `parseInt`. */
  function ParseMonthFilter(filter: string): Option<MonthKey>
  {
    var parts := Split(filter, '-');
    var y := ParseInt(parts[0]);
    var m := if |parts| >= 2 then ParseInt(parts[1]) else None;
    if y.Some? && m.Some? then Some(MonthKey(y.value, m.value)) else None
  }

  /** `parseInt` reads back any non-empty digit string. */
  lemma ParseIntDigits(s: string)
    requires s != [] && AllDigits(s)
    ensures ParseInt(s) == Some(DigitsValue(s))
  {
    assert !IsSpace(s[0]) && s[0] != '-' && s[0] != '+';
    assert TrimStart(s) == s;
    LeadingDigitsAll(s);
  }

  /** A month key read back by the month filter is the month it was made from. */
  lemma MonthFilterRoundTrip(k: MonthKey)
    requires ValidMonth(k) && k.year >= 0
    ensures ParseMonthFilter(KeyString(k)) == Some(k)
  {
    var y := NatToString(k.year);
    var m := PadStart2(NatToString(k.month));
    PaddedMonth(k.month);
    NoDash(y);
    NoDash(m);
    assert KeyString(k) == Join([y, m], '-');
    SplitJoin([y, m], '-');
    ParseIntDigits(y);
    ParseIntDigits(m);
  }

  lemma NoDash(s: string)
    requires AllDigits(s)
    ensures '-' !in s
  {
  }

  lemma PaddedMonth(month: nat)
    requires 1 <= month <= 12
    ensures var m := PadStart2(NatToString(month)); m != [] && AllDigits(m) && DigitsValue(m) == month
  {
    var m := PadStart2(NatToString(month));
    if month < 10 {
      assert m == "0" + NatToString(month);
      assert m[..1] == "0";
      assert m[..1][..0] == [];
    } else {
      assert m == NatToString(month);
    }
  }
}
