/**
 * Day identifiers, as `getTodayId` in defaultValues.js builds them.
 *
 * `getTodayId` asks `Intl.DateTimeFormat` for the calendar year, month and day
 * of an instant in a time zone, runs each part through `parseInt`, and joins
 * the three numbers as `Y-M-D` without any zero padding. The time-zone
 * conversion is foreign code: it is a `Calendar` value supplied by the caller.
 * The formatting is modelled exactly, together with a parser that inverts it.
 *
 * The tracker compares day identifiers with JavaScript's string `<=`, which is
 * lexicographic by character code. `LexLe` models that comparison; it is a total
 * order on strings, but on unpadded identifiers it is NOT chronological
 * (see `UnpaddedIdsAreNotChronological`).
 */
module DayIds {
  import opened Wrappers

  /** A point in time as a JavaScript `Date` holds it: milliseconds since the epoch. */
  type Instant = int

  /** The calendar fields of one day, as `parseInt` returns them. */
  datatype Date = Date(year: nat, month: nat, day: nat)

  /** The time-zone conversion `Intl.DateTimeFormat` performs: zone and instant to calendar day. */
  type Calendar = (string, Instant) -> Date

  /** `getTodayId(tz, now)`: the day identifier of instant `now` in time zone `tz`. */
  function DayId(calendar: Calendar, tz: string, now: Instant): string {
    FormatDayId(calendar(tz, now))
  }

  /**
   * Every identifier `getTodayId` returns is three unpadded numerals joined by
   * '-', and it reads back as the calendar day it was made from.
   */
  lemma DayIdShape(calendar: Calendar, tz: string, now: Instant)
    ensures WellFormedDayId(DayId(calendar, tz, now))
    ensures ParseDayId(DayId(calendar, tz, now)) == Some(calendar(tz, now))
  {
    ParseFormatDayId(calendar(tz, now));
  }

  // ---------------------------------------------------------------------------
  // Unpadded decimal numerals

  predicate IsDigit(c: char) {
    '0' <= c <= '9'
  }

  predicate AllDigits(s: string) {
    forall k :: 0 <= k < |s| ==> IsDigit(s[k])
  }

  /** A numeral as `${n}` prints a number: digits only, and no leading zero unless it is "0". */
  predicate Unpadded(s: string) {
    |s| >= 1 && AllDigits(s) && (s[0] == '0' ==> |s| == 1)
  }

  function Digit(n: nat): (c: char)
    requires n < 10
    ensures IsDigit(c) && DigitValue(c) == n
  {
    (n + '0' as int) as char
  }

  function DigitValue(c: char): nat
    requires IsDigit(c)
  {
    c as int - '0' as int
  }

  /** The decimal numeral of `n`, as a template string prints it. */
  function Decimal(n: nat): (s: string)
    ensures Unpadded(s)
    ensures s[0] == '0' <==> n == 0
    decreases n
  {
    if n < 10 then [Digit(n)] else Decimal(n / 10) + [Digit(n % 10)]
  }

  /** The value of a string of decimal digits. */
  function DecimalValue(s: string): nat
    requires AllDigits(s)
    decreases |s|
  {
    if s == [] then 0 else DecimalValue(s[..|s| - 1]) * 10 + DigitValue(s[|s| - 1])
  }

  lemma {:induction false} DecimalValueOfDecimal(n: nat)
    ensures DecimalValue(Decimal(n)) == n
    decreases n
  {
    if n >= 10 {
      var s := Decimal(n);
      assert s[..|s| - 1] == Decimal(n / 10);
      DecimalValueOfDecimal(n / 10);
    }
  }

  /** A digit string that does not start with '0' has a positive value. */
  lemma {:induction false} DecimalValuePositive(s: string)
    requires |s| >= 1 && AllDigits(s) && s[0] != '0'
    ensures DecimalValue(s) >= 1
    decreases |s|
  {
    if |s| > 1 {
      DecimalValuePositive(s[..|s| - 1]);
    }
  }

  lemma {:induction false} DecimalOfDecimalValue(s: string)
    requires Unpadded(s)
    ensures Decimal(DecimalValue(s)) == s
    decreases |s|
  {
    if |s| > 1 {
      var init := s[..|s| - 1];
      DecimalOfDecimalValue(init);
      DecimalValuePositive(init);
      var n := DecimalValue(s);
      assert n / 10 == DecimalValue(init) && n % 10 == DigitValue(s[|s| - 1]);
      assert Digit(n % 10) == s[|s| - 1];
      assert s == init + [s[|s| - 1]];
    }
  }

  // ---------------------------------------------------------------------------
  // The `Y-M-D` identifier and its parser

  /** Line 11 of defaultValues.js: the three parts joined by '-', unpadded. */
  function FormatDayId(d: Date): string {
    Decimal(d.year) + "-" + Decimal(d.month) + "-" + Decimal(d.day)
  }

  /** The shape every identifier `getTodayId` returns has: three unpadded numerals joined by '-'. */
  predicate WellFormedDayId(s: string) {
    ParseDayId(s).Some?
  }

  /** The position of the first '-' in `s`, or `|s|` when there is none. */
  function DashIndex(s: string): (i: nat)
    ensures i <= |s|
    ensures i < |s| ==> s[i] == '-'
    ensures forall k :: 0 <= k < i ==> s[k] != '-'
  {
    if s == [] then 0 else if s[0] == '-' then 0 else 1 + DashIndex(s[1..])
  }

  /** Splits `s` at its first '-'; `None` when it has none. */
  function SplitAtDash(s: string): (r: Option<(string, string)>)
    ensures r.Some? ==> s == r.value.0 + "-" + r.value.1 && '-' !in r.value.0
  {
    var i := DashIndex(s);
    if i == |s| then None else
      assert s == s[..i] + "-" + s[i + 1..];
      Some((s[..i], s[i + 1..]))
  }

  lemma SplitAtDashAfterNumeral(a: string, b: string)
    requires AllDigits(a)
    ensures SplitAtDash(a + "-" + b) == Some((a, b))
  {
    var s := a + "-" + b;
    assert s[|a|] == '-';
    assert forall k :: 0 <= k < |a| ==> s[k] == a[k];
    assert s[..|a|] == a && s[|a| + 1..] == b;
  }

  /** Reads a day identifier back into its calendar fields; `None` for anything else. */
  function ParseDayId(s: string): Option<Date> {
    match SplitAtDash(s)
    case None => None
    case Some((y, rest)) =>
      match SplitAtDash(rest)
      case None => None
      case Some((m, d)) =>
        if Unpadded(y) && Unpadded(m) && Unpadded(d) then
          Some(Date(DecimalValue(y), DecimalValue(m), DecimalValue(d)))
        else None
  }

  /** Parsing inverts formatting, so distinct days never share an identifier. */
  lemma {:induction false} ParseFormatDayId(d: Date)
    ensures ParseDayId(FormatDayId(d)) == Some(d)
  {
    var y, m, dd := Decimal(d.year), Decimal(d.month), Decimal(d.day);
    assert FormatDayId(d) == y + "-" + (m + "-" + dd);
    SplitAtDashAfterNumeral(y, m + "-" + dd);
    SplitAtDashAfterNumeral(m, dd);
    DecimalValueOfDecimal(d.year);
    DecimalValueOfDecimal(d.month);
    DecimalValueOfDecimal(d.day);
  }

  /** Formatting inverts parsing: a well-formed identifier is the one its day prints as. */
  lemma {:induction false} FormatParseDayId(s: string)
    requires WellFormedDayId(s)
    ensures FormatDayId(ParseDayId(s).value) == s
  {
    var (y, rest) := SplitAtDash(s).value;
    var (m, d) := SplitAtDash(rest).value;
    var date := ParseDayId(s).value;
    assert date == Date(DecimalValue(y), DecimalValue(m), DecimalValue(d));
    DecimalOfDecimalValue(y);
    DecimalOfDecimalValue(m);
    DecimalOfDecimalValue(d);
    assert FormatDayId(date) == y + "-" + m + "-" + d;
    Regroup(y, m, d);
  }

  lemma FormatDayIdInjective(d1: Date, d2: Date)
    requires FormatDayId(d1) == FormatDayId(d2)
    ensures d1 == d2
  {
    ParseFormatDayId(d1);
    ParseFormatDayId(d2);
  }

  // ---------------------------------------------------------------------------
  // JavaScript's string comparison

  /**
   * `a <= b` on JavaScript strings: the first differing character decides, and
   * a proper prefix comes first. (Dafny's own `<=` on sequences means "is a
   * prefix of", which is a different relation.)
   */
  predicate LexLe(a: string, b: string)
    decreases |a|
  {
    if a == [] then true
    else if b == [] then false
    else if a[0] != b[0] then a[0] < b[0]
    else LexLe(a[1..], b[1..])
  }

  lemma {:induction false} LexLeReflexive(a: string)
    ensures LexLe(a, a)
    decreases |a|
  {
    if a != [] {
      LexLeReflexive(a[1..]);
    }
  }

  lemma {:induction false} LexLeTotal(a: string, b: string)
    ensures LexLe(a, b) || LexLe(b, a)
    decreases |a|
  {
    if a != [] && b != [] && a[0] == b[0] {
      LexLeTotal(a[1..], b[1..]);
    }
  }

  lemma {:induction false} LexLeAntisymmetric(a: string, b: string)
    requires LexLe(a, b) && LexLe(b, a)
    ensures a == b
    decreases |a|
  {
    if a != [] && b != [] {
      LexLeAntisymmetric(a[1..], b[1..]);
      assert a == [a[0]] + a[1..] && b == [b[0]] + b[1..];
    }
  }

  lemma {:induction false} LexLeTransitive(a: string, b: string, c: string)
    requires LexLe(a, b) && LexLe(b, c)
    ensures LexLe(a, c)
    decreases |a|
  {
    if a != [] && a[0] == b[0] && b[0] == c[0] {
      LexLeTransitive(a[1..], b[1..], c[1..]);
    }
  }

  /** A common prefix does not decide the comparison: the rest of the strings does. */
  lemma {:induction false} LexLeCommonPrefix(p: string, a: string, b: string)
    ensures LexLe(p + a, p + b) == LexLe(a, b)
    decreases |p|
  {
    if p == [] {
      assert p + a == a && p + b == b;
    } else {
      assert (p + a)[0] == p[0] == (p + b)[0];
      assert (p + a)[1..] == p[1..] + a && (p + b)[1..] == p[1..] + b;
      LexLeCommonPrefix(p[1..], a, b);
    }
  }

  /** Chronological order of calendar days. */
  predicate DateLe(d1: Date, d2: Date) {
    d1.year < d2.year
    || (d1.year == d2.year && d1.month < d2.month)
    || (d1.year == d2.year && d1.month == d2.month && d1.day <= d2.day)
  }

  /**
   * The start-date comparison disagrees with the calendar: 30 September 2023
   * comes before 1 October 2023, but "2023-9-30" <= "2023-10-1" is false,
   * because '9' sorts after '1'.
   */
  lemma UnpaddedIdsAreNotChronological()
    ensures DateLe(Date(2023, 9, 30), Date(2023, 10, 1))
    ensures !LexLe(FormatDayId(Date(2023, 9, 30)), FormatDayId(Date(2023, 10, 1)))
  {
    var sep, oct := FormatDayId(Date(2023, 9, 30)), FormatDayId(Date(2023, 10, 1));
    var year := Decimal(2023);
    assert year == "2023" by {
      assert Decimal(2) == "2";
      assert Decimal(20) == "20";
      assert Decimal(202) == "202";
    }
    assert sep == year + "-" + "9" + "-" + "30";
    assert oct == year + "-" + "10" + "-" + "1";
    Regroup(year, "9", "30");
    Regroup(year, "10", "1");
    assert "9" + "-" + "30" == "9-30" && "10" + "-" + "1" == "10-1";
    LexLeCommonPrefix(year + "-", "9-30", "10-1");
    assert !LexLe("9-30", "10-1") by {
      assert "9-30"[0] == '9' && "10-1"[0] == '1';
    }
  }

  /** Concatenation regrouped around the first separator of an identifier. */
  lemma Regroup(y: string, m: string, d: string)
    ensures y + "-" + m + "-" + d == (y + "-") + (m + "-" + d)
  {
  }
}
