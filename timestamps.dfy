/**
 * Calendar dates (SQL DATE, Python `date`) and timestamps (SQL TIMESTAMP,
 * Python `datetime`), their chronological order, and the two text renderings
 * the transformer uses: `isoformat()` and `strftime("%m-%d")`.
 */
module Timestamps {
  import opened Wrappers

  datatype Date = Date(year: int, month: int, day: int)

  /** A timestamp is a date and the microseconds elapsed since its midnight. */
  datatype Timestamp = Timestamp(date: Date, micros: int)

  const MicrosPerSecond: int := 1_000_000
  const MicrosPerDay: int := 86_400 * MicrosPerSecond

  predicate IsLeapYear(y: int) {
    y % 4 == 0 && (y % 100 != 0 || y % 400 == 0)
  }

  function DaysInMonth(y: int, m: int): (n: int)
    requires 1 <= m <= 12
    ensures 28 <= n <= 31
  {
    if m == 2 then (if IsLeapYear(y) then 29 else 28)
    else if m == 4 || m == 6 || m == 9 || m == 11 then 30
    else 31
  }

  /** The values a Python `date` can hold: years 1 to 9999 of the Gregorian calendar. */
  predicate ValidDate(d: Date) {
    1 <= d.year <= 9999 && 1 <= d.month <= 12 && 1 <= d.day <= DaysInMonth(d.year, d.month)
  }

  predicate ValidTimestamp(t: Timestamp) {
    ValidDate(t.date) && 0 <= t.micros < MicrosPerDay
  }

  type CalendarDate = d: Date | ValidDate(d) witness Date(1, 1, 1)

  type DateTime = t: Timestamp | ValidTimestamp(t) witness Timestamp(Date(1, 1, 1), 0)

  /** Python's `datetime.min`, the value the watermark table is seeded with. */
  const MinDateTime: DateTime := Timestamp(Date(1, 1, 1), 0)

  predicate DateBefore(a: Date, b: Date) {
    a.year < b.year
    || (a.year == b.year && a.month < b.month)
    || (a.year == b.year && a.month == b.month && a.day < b.day)
  }

  /** Strict chronological order of timestamps. */
  predicate Before(a: Timestamp, b: Timestamp) {
    DateBefore(a.date, b.date) || (a.date == b.date && a.micros < b.micros)
  }

  predicate NotAfter(a: Timestamp, b: Timestamp) {
    a == b || Before(a, b)
  }

  lemma BeforeIsStrictTotalOrder(a: Timestamp, b: Timestamp, c: Timestamp)
    ensures !Before(a, a)
    ensures Before(a, b) ==> !Before(b, a)
    ensures Before(a, b) && Before(b, c) ==> Before(a, c)
    ensures a == b || Before(a, b) || Before(b, a)
  {
  }

  /** `datetime.min` is not after any timestamp. */
  lemma MinDateTimeIsLeast(t: DateTime)
    ensures NotAfter(MinDateTime, t)
  {
  }

  /**
   * SQL's `c > t` as a WHERE condition: it holds only when both operands are
   * non-NULL and `c` is later than `t` (a comparison with NULL is never true).
   */
  predicate After(c: Option<DateTime>, t: Option<DateTime>) {
    c.Some? && t.Some? && Before(t.value, c.value)
  }

  /** A watermark moving from `a` to `b` never goes back in time. */
  predicate Advances(a: Option<DateTime>, b: Option<DateTime>) {
    a == b || After(b, a)
  }

  lemma AdvancesTransitive(a: Option<DateTime>, b: Option<DateTime>, c: Option<DateTime>)
    requires Advances(a, b) && Advances(b, c)
    ensures Advances(a, c)
  {
  }

  // ---- decimal digits -----------------------------------------------------

  function Pow10(n: nat): (p: nat)
    ensures p >= 1
  {
    if n == 0 then 1 else 10 * Pow10(n - 1)
  }

  predicate IsDigit(c: char) {
    '0' <= c <= '9'
  }

  function DigitChar(d: nat): (c: char)
    requires d < 10
    ensures IsDigit(c)
  {
    ('0' as int + d) as char
  }

  function DigitValue(c: char): nat
    requires IsDigit(c)
  {
    (c as int - '0' as int) as nat
  }

  predicate AllDigits(s: string) {
    forall i :: 0 <= i < |s| ==> IsDigit(s[i])
  }

  /** The number a string of decimal digits denotes (leading zeros allowed). */
  function DecimalValue(s: string): nat
    requires AllDigits(s)
  {
    if s == [] then 0 else 10 * DecimalValue(s[..|s| - 1]) + DigitValue(s[|s| - 1])
  }

  /**
   * `n` written with exactly `width` decimal digits, zero-padded on the left,
   * as Python's `%02d`-style directives render it.
   */
  function ZeroPadded(n: nat, width: nat): (s: string)
    requires n < Pow10(width)
    ensures |s| == width && AllDigits(s)
  {
    if width == 0 then "" else ZeroPadded(n / 10, width - 1) + [DigitChar(n % 10)]
  }

  lemma {:induction false} ZeroPaddedRoundTrip(n: nat, width: nat)
    requires n < Pow10(width)
    ensures DecimalValue(ZeroPadded(n, width)) == n
  {
    if width != 0 {
      var s := ZeroPadded(n, width);
      ZeroPaddedRoundTrip(n / 10, width - 1);
      assert s[..|s| - 1] == ZeroPadded(n / 10, width - 1);
    }
  }

  // ---- renderings -----------------------------------------------------------

  /** `date.isoformat()`: `YYYY-MM-DD`. */
  function IsoFormatDate(d: CalendarDate): string {
    ZeroPadded(d.year, 4) + "-" + ZeroPadded(d.month, 2) + "-" + ZeroPadded(d.day, 2)
  }

  /** `date.strftime("%m-%d")`: two-digit month, a dash, two-digit day. */
  function MonthDay(d: CalendarDate): string {
    ZeroPadded(d.month, 2) + "-" + ZeroPadded(d.day, 2)
  }

  function Hour(t: DateTime): nat { t.micros / (3600 * MicrosPerSecond) }
  function Minute(t: DateTime): nat { (t.micros / (60 * MicrosPerSecond)) % 60 }
  function Second(t: DateTime): nat { (t.micros / MicrosPerSecond) % 60 }
  function Microsecond(t: DateTime): nat { t.micros % MicrosPerSecond }

  /**
   * `datetime.isoformat()`: `YYYY-MM-DDTHH:MM:SS`, followed by `.ffffff`
   * only when the microsecond field is not zero.
   */
  function IsoFormat(t: DateTime): string {
    IsoFormatDate(t.date) + "T"
    + ZeroPadded(Hour(t), 2) + ":" + ZeroPadded(Minute(t), 2) + ":" + ZeroPadded(Second(t), 2)
    + (if Microsecond(t) != 0 then "." + ZeroPadded(Microsecond(t), 6) else "")
  }

  /** Reads back a `YYYY-MM-DD` string; the partner of IsoFormatDate. */
  function ParseIsoDate(s: string): Option<Date> {
    if |s| == 10 && s[4] == '-' && s[7] == '-'
       && AllDigits(s[..4]) && AllDigits(s[5..7]) && AllDigits(s[8..])
    then Some(Date(DecimalValue(s[..4]), DecimalValue(s[5..7]), DecimalValue(s[8..])))
    else None
  }

  lemma IsoFormatDateRoundTrip(d: CalendarDate)
    ensures ParseIsoDate(IsoFormatDate(d)) == Some(d)
  {
    var s := IsoFormatDate(d);
    assert s[..4] == ZeroPadded(d.year, 4);
    assert s[5..7] == ZeroPadded(d.month, 2);
    assert s[8..] == ZeroPadded(d.day, 2);
    ZeroPaddedRoundTrip(d.year, 4);
    ZeroPaddedRoundTrip(d.month, 2);
    ZeroPaddedRoundTrip(d.day, 2);
  }

  /** The `%m-%d` text is five characters and reads back as the month and the day. */
  lemma MonthDayRoundTrip(d: CalendarDate)
    ensures |MonthDay(d)| == 5 && MonthDay(d)[2] == '-'
    ensures AllDigits(MonthDay(d)[..2]) && DecimalValue(MonthDay(d)[..2]) == d.month
    ensures AllDigits(MonthDay(d)[3..]) && DecimalValue(MonthDay(d)[3..]) == d.day
  {
    var s := MonthDay(d);
    assert s[..2] == ZeroPadded(d.month, 2);
    assert s[3..] == ZeroPadded(d.day, 2);
    ZeroPaddedRoundTrip(d.month, 2);
    ZeroPaddedRoundTrip(d.day, 2);
  }

  /**
   * The shape of `isoformat()`: the date part, `T`, then `HH:MM:SS` whose
   * digits read back as hour, minute and second, and `.ffffff` reading back
   * as the microsecond exactly when that is not zero.
   */
  lemma IsoFormatShape(t: DateTime)
    ensures IsoFormat(t)[..10] == IsoFormatDate(t.date)
    ensures ParseIsoDate(IsoFormat(t)[..10]) == Some(t.date)
    ensures IsoFormat(t)[10] == 'T' && IsoFormat(t)[13] == ':' && IsoFormat(t)[16] == ':'
    ensures AllDigits(IsoFormat(t)[11..13]) && DecimalValue(IsoFormat(t)[11..13]) == Hour(t)
    ensures AllDigits(IsoFormat(t)[14..16]) && DecimalValue(IsoFormat(t)[14..16]) == Minute(t)
    ensures AllDigits(IsoFormat(t)[17..19]) && DecimalValue(IsoFormat(t)[17..19]) == Second(t)
    ensures |IsoFormat(t)| == if Microsecond(t) == 0 then 19 else 26
    ensures Microsecond(t) != 0 ==>
      && IsoFormat(t)[19] == '.'
      && AllDigits(IsoFormat(t)[20..]) && DecimalValue(IsoFormat(t)[20..]) == Microsecond(t)
  {
    var h, m, sec := ZeroPadded(Hour(t), 2), ZeroPadded(Minute(t), 2), ZeroPadded(Second(t), 2);
    var frac := if Microsecond(t) != 0 then "." + ZeroPadded(Microsecond(t), 6) else "";
    assert IsoFormat(t) == IsoFormatDate(t.date) + "T" + h + ":" + m + ":" + sec + frac;
    TimeTextLayout(IsoFormatDate(t.date), h, m, sec, frac);
    IsoFormatDateRoundTrip(t.date);
    ZeroPaddedRoundTrip(Hour(t), 2);
    ZeroPaddedRoundTrip(Minute(t), 2);
    ZeroPaddedRoundTrip(Second(t), 2);
    if Microsecond(t) != 0 {
      assert frac[1..] == ZeroPadded(Microsecond(t), 6);
      ZeroPaddedRoundTrip(Microsecond(t), 6);
    }
  }

  /** Where each part of `d` + `T` + `h:m:s` + `frac` lands. */
  lemma TimeTextLayout(d: string, h: string, m: string, sec: string, frac: string)
    requires |d| == 10 && |h| == 2 && |m| == 2 && |sec| == 2
    ensures var s := d + "T" + h + ":" + m + ":" + sec + frac;
      && |s| == 19 + |frac|
      && s[..10] == d && s[10] == 'T' && s[11..13] == h && s[13] == ':'
      && s[14..16] == m && s[16] == ':' && s[17..19] == sec && s[19..] == frac
  {
  }
}
