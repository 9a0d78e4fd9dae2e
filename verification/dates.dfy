/**
 * Calendar dates as the booking dialog handles them: the calendar's
 * "disabled" test against the current time, and `format(date, 'yyyy-MM-dd')`
 * for the inserted row, with the parse that undoes it.
 */
module Dates {
  import opened Wrappers

  /** A local calendar day. */
  datatype Date = Date(year: nat, month: nat, day: nat)

  predicate IsLeapYear(y: nat)
  {
    (y % 4 == 0 && y % 100 != 0) || y % 400 == 0
  }

  function DaysInMonth(y: nat, m: nat): nat
  {
    if m == 2 then (if IsLeapYear(y) then 29 else 28)
    else if m == 4 || m == 6 || m == 9 || m == 11 then 30
    else 31
  }

  predicate ValidDate(d: Date)
  {
    1 <= d.month <= 12 && 1 <= d.day <= DaysInMonth(d.year, d.month)
  }

  /** Strict calendar order. */
  predicate Before(a: Date, b: Date)
  {
    a.year < b.year
    || (a.year == b.year && a.month < b.month)
    || (a.year == b.year && a.month == b.month && a.day < b.day)
  }

  /** The current local time: today's date and the milliseconds elapsed since its midnight. */
  datatype Instant = Instant(today: Date, msSinceMidnight: nat)

  /**
   * The calendar's `disabled={(date) => date < new Date()}`: a calendar day
   * stands for its midnight, so it is disabled when it lies before today, and
   * today itself is disabled at every moment after midnight.
   */
  predicate CalendarDisabled(d: Date, now: Instant)
  {
    Before(d, now.today) || (d == now.today && now.msSinceMidnight > 0)
  }

  /** The days the calendar lets one pick lie after today, or are today at the stroke of midnight. */
  lemma SelectableDaysAreNotPast(d: Date, now: Instant)
    requires ValidDate(d) && ValidDate(now.today)
    requires !CalendarDisabled(d, now)
    ensures Before(now.today, d) || (d == now.today && now.msSinceMidnight == 0)
  {
  }

  function DigitChar(n: nat): (c: char)
    requires n < 10
    ensures '0' <= c <= '9'
  {
    ('0' as int + n) as char
  }

  function DigitValue(c: char): nat
    requires '0' <= c <= '9'
  {
    c as int - '0' as int
  }

  predicate AllDigits(s: string)
  {
    forall i :: 0 <= i < |s| ==> '0' <= s[i] <= '9'
  }

  /** The decimal numeral of `n`, without leading zeros. */
  function Decimal(n: nat): (s: string)
    ensures |s| >= 1 && AllDigits(s)
    ensures n < 10 <==> |s| == 1
    ensures 10 <= n < 100 ==> |s| == 2
    ensures 100 <= n < 1000 ==> |s| == 3
    ensures 1000 <= n < 10000 ==> |s| == 4
  {
    if n < 10 then [DigitChar(n)] else Decimal(n / 10) + [DigitChar(n % 10)]
  }

  /** The value of a string of decimal digits (leading zeros allowed). */
  function ParseDecimal(s: string): nat
    requires AllDigits(s)
  {
    if s == [] then 0 else ParseDecimal(s[..|s| - 1]) * 10 + DigitValue(s[|s| - 1])
  }

  lemma {:induction false} ParseDecimalOfDecimal(n: nat)
    ensures ParseDecimal(Decimal(n)) == n
  {
    if n >= 10 {
      ParseDecimalOfDecimal(n / 10);
      var s := Decimal(n);
      assert s[..|s| - 1] == Decimal(n / 10);
    }
  }

  lemma {:induction false} LeadingZeroIsIgnored(s: string)
    requires AllDigits(s)
    ensures ParseDecimal(['0'] + s) == ParseDecimal(s)
    decreases |s|
  {
    if s != [] {
      var t := ['0'] + s;
      assert t[..|t| - 1] == ['0'] + s[..|s| - 1];
      LeadingZeroIsIgnored(s[..|s| - 1]);
    }
  }

  /** `n` written with at least `width` digits, padded on the left with zeros, as date-fns pads a token. */
  function Padded(n: nat, width: nat): (s: string)
    ensures AllDigits(s)
    ensures |s| == if |Decimal(n)| >= width then |Decimal(n)| else width
    ensures ParseDecimal(s) == n
    decreases width
  {
    if |Decimal(n)| >= width then
      ParseDecimalOfDecimal(n);
      Decimal(n)
    else
      var s := Padded(n, width - 1);
      LeadingZeroIsIgnored(s);
      ['0'] + s
  }

  /** `format(d, 'yyyy-MM-dd')`. */
  function FormatIso(d: Date): string
  {
    Padded(d.year, 4) + "-" + Padded(d.month, 2) + "-" + Padded(d.day, 2)
  }

  /** Reads back a `yyyy-MM-dd` string: a year of four or more digits, then two-digit month and day. */
  function ParseIso(s: string): Option<Date>
  {
    if |s| >= 10 && s[|s| - 6] == '-' && s[|s| - 3] == '-'
       && AllDigits(s[..|s| - 6]) && AllDigits(s[|s| - 5..|s| - 3]) && AllDigits(s[|s| - 2..])
    then
      Some(Date(ParseDecimal(s[..|s| - 6]), ParseDecimal(s[|s| - 5..|s| - 3]), ParseDecimal(s[|s| - 2..])))
    else
      None
  }

  /** The three fields of `y-m-d`, when month and day have two characters each. */
  lemma SplitIsoFields(y: string, m: string, dd: string)
    requires |m| == 2 && |dd| == 2
    ensures var s := y + "-" + m + "-" + dd;
      |s| == |y| + 6 && s[|s| - 6] == '-' && s[|s| - 3] == '-'
      && s[..|s| - 6] == y && s[|s| - 5..|s| - 3] == m && s[|s| - 2..] == dd
  {
  }

  /** Every calendar date formats to a string that reads back as that date. */
  lemma FormatIsoRoundTrip(d: Date)
    requires ValidDate(d)
    ensures ParseIso(FormatIso(d)) == Some(d)
  {
    var y, m, dd := Padded(d.year, 4), Padded(d.month, 2), Padded(d.day, 2);
    assert |Decimal(d.month)| <= 2 && |Decimal(d.day)| <= 2;
    SplitIsoFields(y, m, dd);
  }

  /** Before year 10000 the format is exactly ten characters. */
  lemma FormatIsoLength(d: Date)
    requires ValidDate(d) && d.year < 10000
    ensures |FormatIso(d)| == 10
  {
  }
}
