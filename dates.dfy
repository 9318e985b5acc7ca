/** Dates as the views read them through `new Date(...)`: a calendar year,
    a month numbered 0..11 as `getMonth()` returns it, a day of the month and
    the milliseconds since midnight. Parsing date strings, locale formatting
    and time zones are outside the model (every date is taken in one zone). */
module Dates {
  import opened JsValues

  datatype DateTime = DateTime(year: int, month: int, day: int, millis: int)

  /** A calendar month: `getFullYear()` and `getMonth()` of some date. */
  datatype YearMonth = YearMonth(year: int, month: int)

  const MillisPerDay: int := 86_400_000

  /** Gregorian leap years, which `Date` uses for every year. */
  predicate IsLeapYear(y: int)
  {
    y % 4 == 0 && (y % 100 != 0 || y % 400 == 0)
  }

  function DaysInMonth(y: int, m: int): (n: int)
    requires 0 <= m < 12
    ensures 28 <= n <= 31
  {
    if m == 1 then (if IsLeapYear(y) then 29 else 28)
    else if m == 3 || m == 5 || m == 8 || m == 10 then 30
    else 31
  }

  /** A date that exists in the calendar. */
  predicate Valid(d: DateTime)
  {
    0 <= d.month < 12 && 1 <= d.day <= DaysInMonth(d.year, d.month) && 0 <= d.millis < MillisPerDay
  }

  /** The month a date falls in. */
  function MonthOf(d: DateTime): YearMonth
  {
    YearMonth(d.year, d.month)
  }

  /** Months counted from year 0: consecutive calendar months get consecutive numbers. */
  function MonthIndex(ym: YearMonth): int
  {
    ym.year * 12 + ym.month
  }

  /** A number that orders dates as `new Date(a) - new Date(b)` does. Every
      month is given 31 day slots, so the number is not a count of milliseconds,
      but it grows with the date. */
  function Ordinal(d: DateTime): int
  {
    ((d.year * 12 + d.month) * 31 + (d.day - 1)) * 86_400_000 + d.millis
  }

  /** A date that is not later than another lies in the same month or an earlier one. */
  lemma OrdinalOrdersMonths(a: DateTime, b: DateTime)
    requires Valid(a) && Valid(b)
    requires Ordinal(a) <= Ordinal(b)
    ensures MonthIndex(MonthOf(a)) <= MonthIndex(MonthOf(b))
  {
  }

  /** `Date` ordering is total on valid dates: equal numbers mean the same date. */
  lemma OrdinalInjective(a: DateTime, b: DateTime)
    requires Valid(a) && Valid(b)
    requires Ordinal(a) == Ordinal(b)
    ensures a == b
  {
    OrdinalOrdersMonths(a, b);
    OrdinalOrdersMonths(b, a);
  }

  /** The month before a month. */
  function PreviousMonth(ym: YearMonth): (p: YearMonth)
    requires 0 <= ym.month < 12
    ensures 0 <= p.month < 12
    ensures MonthIndex(p) == MonthIndex(ym) - 1
  {
    if ym.month == 0 then YearMonth(ym.year - 1, 11) else YearMonth(ym.year, ym.month - 1)
  }

  /** The month after a month. */
  function NextMonth(ym: YearMonth): (n: YearMonth)
    requires 0 <= ym.month < 12
    ensures 0 <= n.month < 12
    ensures MonthIndex(n) == MonthIndex(ym) + 1
  {
    if ym.month == 11 then YearMonth(ym.year + 1, 0) else YearMonth(ym.year, ym.month + 1)
  }

  /** `d.setMonth(m)`: the month is set to `m`, which may lie outside 0..11
      and then moves the year; the day of the month is kept, and a day the
      target month does not have runs over into the month after it. */
  function SetMonth(d: DateTime, m: int): (r: DateTime)
    requires Valid(d)
    ensures Valid(r) && r.millis == d.millis
    ensures var target := d.year * 12 + m;
            if r.day == d.day then MonthIndex(MonthOf(r)) == target
            else MonthIndex(MonthOf(r)) == target + 1 && r.day < d.day
  {
    var ym := YearMonth(d.year + m / 12, m % 12);
    if d.day <= DaysInMonth(ym.year, ym.month) then DateTime(ym.year, ym.month, d.day, d.millis)
    else
      var n := NextMonth(ym);
      DateTime(n.year, n.month, d.day - DaysInMonth(ym.year, ym.month), d.millis)
  }

  /** `calculateLoanDurationInMonths`: the difference of the two dates'
      years times twelve plus the difference of their months. */
  function MonthsBetween(from: DateTime, to: DateTime): (n: int)
    ensures n == MonthIndex(MonthOf(to)) - MonthIndex(MonthOf(from))
    ensures MonthOf(from) == MonthOf(to) ==> n == 0
  {
    12 * (to.year - from.year) + (to.month - from.month)
  }

  /** A date no later than another is a whole number of months before it. */
  lemma MonthsBetweenNonNegative(from: DateTime, to: DateTime)
    requires Valid(from) && Valid(to)
    requires Ordinal(from) <= Ordinal(to)
    ensures MonthsBetween(from, to) >= 0
  {
    OrdinalOrdersMonths(from, to);
  }

  /** Durations add up along a chain of dates. */
  lemma MonthsBetweenAdds(a: DateTime, b: DateTime, c: DateTime)
    ensures MonthsBetween(a, c) == MonthsBetween(a, b) + MonthsBetween(b, c)
  {
  }

  /** `d.setDate(d.getDate() - 1)`: the same time on the calendar day before. */
  function PreviousDay(d: DateTime): (r: DateTime)
    requires Valid(d)
    ensures Valid(r) && r.millis == d.millis
    ensures Ordinal(r) < Ordinal(d)
    ensures r.day == d.day - 1 || (r.day == DaysInMonth(r.year, r.month) && MonthIndex(MonthOf(r)) == MonthIndex(MonthOf(d)) - 1)
  {
    if d.day > 1 then d.(day := d.day - 1)
    else
      var p := PreviousMonth(MonthOf(d));
      DateTime(p.year, p.month, DaysInMonth(p.year, p.month), d.millis)
  }

  /** `n` in decimal, left-padded with zeros to `width` digits
      (`String(n).padStart(width, '0')`, the form `toISOString` prints its
      fields in). */
  function ZeroPad(n: nat, width: nat): (s: string)
    ensures |s| == if |NatToString(n)| >= width then |NatToString(n)| else width
    ensures s == Zeros(|s| - |NatToString(n)|) + NatToString(n)
  {
    var digits := NatToString(n);
    if |digits| >= width then digits else Zeros(width - |digits|) + digits
  }

  /** `k` zero digits. */
  function Zeros(k: nat): (z: string)
    ensures |z| == k && forall i :: 0 <= i < k ==> z[i] == '0'
  {
    if k == 0 then [] else Zeros(k - 1) + "0"
  }

  /** The number a string of decimal digits stands for, read from the right. */
  function DecimalValue(s: string): nat
    requires AllDigits(s)
  {
    if s == [] then 0 else DecimalValue(s[..|s| - 1]) * 10 + (s[|s| - 1] as int - '0' as int)
  }

  /** Reading the decimal form of a number gives the number back. */
  lemma {:induction false} NatToStringValue(n: nat)
    ensures DecimalValue(NatToString(n)) == n
  {
    if n >= 10 {
      var s := NatToString(n);
      assert s[..|s| - 1] == NatToString(n / 10);
      NatToStringValue(n / 10);
    }
  }

  /** Different numbers print differently. */
  lemma NatToStringInjective(m: nat, n: nat)
    requires m != n
    ensures NatToString(m) != NatToString(n)
  {
    NatToStringValue(m);
    NatToStringValue(n);
  }

  /** Leading zeros do not change the value of a digit string. */
  lemma {:induction false} LeadingZerosValue(zeros: string, t: string)
    requires zeros == Zeros(|zeros|)
    requires AllDigits(t)
    ensures AllDigits(zeros + t) && DecimalValue(zeros + t) == DecimalValue(t)
    decreases |zeros| + |t|
  {
    if t == [] {
      assert zeros + t == zeros;
      if zeros != [] {
        LeadingZerosValue(zeros[..|zeros| - 1], []);
        assert zeros[..|zeros| - 1] + [] == zeros[..|zeros| - 1];
      }
    } else {
      var s := zeros + t;
      assert s[..|s| - 1] == zeros + t[..|t| - 1];
      LeadingZerosValue(zeros, t[..|t| - 1]);
    }
  }

  /** Padding loses nothing: the padded text reads back as the number. */
  lemma ZeroPadValue(n: nat, width: nat)
    ensures AllDigits(ZeroPad(n, width)) && DecimalValue(ZeroPad(n, width)) == n
  {
    var s := ZeroPad(n, width);
    LeadingZerosValue(Zeros(|s| - |NatToString(n)|), NatToString(n));
    NatToStringValue(n);
  }

  /** Different numbers are padded to different texts. */
  lemma ZeroPadInjective(m: nat, n: nat, width: nat)
    requires ZeroPad(m, width) == ZeroPad(n, width)
    ensures m == n
  {
    ZeroPadValue(m, width);
    ZeroPadValue(n, width);
  }

  /** Where the three fields of a `YYYY-MM-DD` text sit. */
  lemma DashedFields(year: string, month: string, day: string)
    requires |year| == 4 && |month| == 2 && |day| == 2
    ensures var s := year + "-" + month + "-" + day;
            |s| == 10 && s[4] == '-' && s[7] == '-' &&
            s[..4] == year && s[5..7] == month && s[8..] == day
  {
  }

  function Pow10(k: nat): nat
  {
    if k == 0 then 1 else 10 * Pow10(k - 1)
  }

  /** A number below `10^width` has at most `width` digits. */
  lemma {:induction false} DigitsWithin(n: nat, width: nat)
    requires 1 <= width && n < Pow10(width)
    ensures |NatToString(n)| <= width
  {
    if n >= 10 {
      DigitsWithin(n / 10, width - 1);
    }
  }

  /** The year field of `toISOString()`: four digits for 0..9999, otherwise a
      sign and six digits. */
  function YearText(y: int): (s: string)
    ensures |s| >= 4
  {
    if 0 <= y <= 9999 then ZeroPad(y, 4)
    else if y < 0 then "-" + ZeroPad(-y, 6)
    else "+" + ZeroPad(y, 6)
  }

  /** The date part of `d.toISOString()`: `YYYY-MM-DD`, with a signed six-digit
      year outside 0..9999 (see `IsoDateLayout`). */
  function IsoDate(d: DateTime): (s: string)
    requires Valid(d)
    ensures |s| >= 10
  {
    YearText(d.year) + "-" + ZeroPad(d.month + 1, 2) + "-" + ZeroPad(d.day, 2)
  }

  /** For a four-digit year the ISO date is ten characters: the year, the
      month counted from 1 and the day, each zero-padded and separated by '-'. */
  lemma IsoDateLayout(d: DateTime)
    requires Valid(d) && 0 <= d.year <= 9999
    ensures var s := IsoDate(d);
            |s| == 10 && s[4] == '-' && s[7] == '-' &&
            s[..4] == ZeroPad(d.year, 4) && s[5..7] == ZeroPad(d.month + 1, 2) && s[8..] == ZeroPad(d.day, 2)
  {
    DigitsWithin(d.year, 4);
    DigitsWithin(d.month + 1, 2);
    DigitsWithin(d.day, 2);
    DashedFields(ZeroPad(d.year, 4), ZeroPad(d.month + 1, 2), ZeroPad(d.day, 2));
  }

  /** A calendar day: what the date part of an ISO text names. */
  datatype CalendarDay = CalendarDay(year: int, month: int, day: int)

  predicate AllDigits(s: string)
  {
    forall i :: 0 <= i < |s| ==> '0' <= s[i] <= '9'
  }

  /** Reads a `YYYY-MM-DD` text back: the year, the month counted from 0
      and the day; `None` for any other text. */
  function ParseIsoDate(s: string): (r: Option<CalendarDay>)
    ensures r.Some? ==> |s| == 10 && s[4] == '-' && s[7] == '-'
  {
    if |s| == 10 && s[4] == '-' && s[7] == '-' && AllDigits(s[..4]) && AllDigits(s[5..7]) && AllDigits(s[8..])
    then Some(CalendarDay(DecimalValue(s[..4]), DecimalValue(s[5..7]) - 1, DecimalValue(s[8..])))
    else None
  }

  /** The ISO date of a date of a four-digit year reads back as its calendar
      day, so different days have different texts and the same day always
      has the same one, whatever the time. */
  lemma IsoDateRoundTrip(d: DateTime)
    requires Valid(d) && 0 <= d.year <= 9999
    ensures ParseIsoDate(IsoDate(d)) == Some(CalendarDay(d.year, d.month, d.day))
  {
    IsoDateLayout(d);
    ParseLaidOut(IsoDate(d), d.year, d.month + 1, d.day);
  }

  /** A text laid out as `YYYY-MM-DD` from three padded numbers reads back
      as those numbers, the month shifted back to count from 0. */
  lemma ParseLaidOut(s: string, y: nat, m: nat, d: nat)
    requires |s| == 10 && s[4] == '-' && s[7] == '-'
    requires s[..4] == ZeroPad(y, 4) && s[5..7] == ZeroPad(m, 2) && s[8..] == ZeroPad(d, 2)
    ensures ParseIsoDate(s) == Some(CalendarDay(y, m - 1, d))
  {
    var year, month, day := s[..4], s[5..7], s[8..];
    assert AllDigits(year) && DecimalValue(year) == y by { ZeroPadValue(y, 4); }
    assert AllDigits(month) && DecimalValue(month) == m by { ZeroPadValue(m, 2); }
    assert AllDigits(day) && DecimalValue(day) == d by { ZeroPadValue(d, 2); }
  }
}
