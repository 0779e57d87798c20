/**
 Times as `setTime` sees them. The PHP code receives Unix timestamps and
 lets `date()` break them down into local civil time; that conversion
 depends on the process time zone and is not modelled, so a time here is
 already broken down. What is modelled is the text `date()` prints for
 the formats the component uses, and the all-day test of `setTime`.
 */
module CivilTime {
  import opened Text
  import opened PhpArray

  /** A local civil time: `date ("Y n j G i s", $timestamp)` as numbers. */
  datatype DateTime = DateTime(year: int, month: int, day: int, hour: int, minute: int, second: int)

  predicate IsLeapYear(y: int) {
    (y % 4 == 0 && y % 100 != 0) || y % 400 == 0
  }

  function DaysInMonth(y: int, m: int): int
    requires 1 <= m <= 12
  {
    if m == 2 then (if IsLeapYear(y) then 29 else 28)
    else if m == 4 || m == 6 || m == 9 || m == 11 then 30
    else 31
  }

  /** A time `date()` can produce, in the years 0..9999, which `Y` zero-pads to exactly four digits. */
  predicate IsValid(t: DateTime) {
    && 0 <= t.year <= 9999
    && 1 <= t.month <= 12
    && 1 <= t.day <= DaysInMonth(t.year, t.month)
    && 0 <= t.hour < 24
    && 0 <= t.minute < 60
    && 0 <= t.second < 60
  }

  /** Fifteen characters: eight digits, a `T`, six digits. */
  predicate IsStampShape(s: string) {
    |s| == 15 && s[8] == 'T' && forall i :: 0 <= i < 15 && i != 8 ==> IsDigit(s[i])
  }

  /** `date ("Ymd\THis", $t)`: the form of DTSTART, DTSTAMP and DTEND. */
  function Stamp(t: DateTime): (s: string)
    requires IsValid(t)
    ensures IsStampShape(s)
  {
    Pad(t.year, 4) + Pad(t.month, 2) + Pad(t.day, 2) + "T" + Pad(t.hour, 2) + Pad(t.minute, 2) + Pad(t.second, 2)
  }

  /** Reads a stamp back; the inverse that shows `Stamp` loses nothing. */
  function ParseStamp(s: string): (r: Option<DateTime>)
    ensures r.Some? ==> IsValid(r.value)
  {
    if IsStampShape(s) then
      assert IsDigits(s[0..4]) && IsDigits(s[4..6]) && IsDigits(s[6..8]);
      assert IsDigits(s[9..11]) && IsDigits(s[11..13]) && IsDigits(s[13..15]);
      var t := DateTime(ValueOf(s[0..4]), ValueOf(s[4..6]), ValueOf(s[6..8]),
                        ValueOf(s[9..11]), ValueOf(s[11..13]), ValueOf(s[13..15]));
      if IsValid(t) then Some(t) else None
    else None
  }

  lemma StampRoundTrip(t: DateTime)
    requires IsValid(t)
    ensures ParseStamp(Stamp(t)) == Some(t)
  {
    var s := Stamp(t);
    assert s[0..4] == Pad(t.year, 4);
    assert s[4..6] == Pad(t.month, 2);
    assert s[6..8] == Pad(t.day, 2);
    assert s[9..11] == Pad(t.hour, 2);
    assert s[11..13] == Pad(t.minute, 2);
    assert s[13..15] == Pad(t.second, 2);
    PadRoundTrip(t.year, 4);
    PadRoundTrip(t.month, 2);
    PadRoundTrip(t.day, 2);
    PadRoundTrip(t.hour, 2);
    PadRoundTrip(t.minute, 2);
    PadRoundTrip(t.second, 2);
  }

  /** Two different times never get the same stamp. */
  lemma StampInjective(a: DateTime, b: DateTime)
    requires IsValid(a) && IsValid(b) && Stamp(a) == Stamp(b)
    ensures a == b
  {
    StampRoundTrip(a);
    StampRoundTrip(b);
  }

  /** The array `splitTime` returns: the strings `date()` prints for `j n Y G i s`. */
  datatype TimeParts = TimeParts(day: string, month: string, year: string, hour: string, minute: string, second: string)

  predicate IsNumeric(p: TimeParts) {
    IsDigits(p.day) && IsDigits(p.month) && IsDigits(p.year)
    && IsDigits(p.hour) && IsDigits(p.minute) && IsDigits(p.second)
  }

  /**
   `splitTime`: day, month and hour without leading zeros, a four-digit
   year, minute and second with two digits. Each part reads back, as a
   PHP numeric string, as the field it came from.
   */
  function SplitTime(t: DateTime): (p: TimeParts)
    requires IsValid(t)
    ensures IsNumeric(p)
    ensures ValueOf(p.day) == t.day && ValueOf(p.month) == t.month && ValueOf(p.year) == t.year
    ensures ValueOf(p.hour) == t.hour && ValueOf(p.minute) == t.minute && ValueOf(p.second) == t.second
  {
    DecimalRoundTrip(t.day);
    DecimalRoundTrip(t.month);
    PadRoundTrip(t.year, 4);
    DecimalRoundTrip(t.hour);
    PadRoundTrip(t.minute, 2);
    PadRoundTrip(t.second, 2);
    TimeParts(Decimal(t.day), Decimal(t.month), Pad(t.year, 4), Decimal(t.hour), Pad(t.minute, 2), Pad(t.second, 2))
  }

  /**
   The condition of `setTime` on the two `splitTime` arrays. PHP compares
   a numeric string with `0`, and two numeric strings with `>`, as numbers.
   */
  predicate AllDayParts(ss: TimeParts, se: TimeParts)
    requires IsNumeric(ss) && IsNumeric(se)
  {
    && ValueOf(ss.hour) == 0 && ValueOf(ss.minute) == 0 && ValueOf(ss.second) == 0
    && ValueOf(se.hour) == 0 && ValueOf(se.minute) == 0 && ValueOf(se.second) == 0
    && (ValueOf(se.day) > ValueOf(ss.day) || ValueOf(se.month) > ValueOf(ss.month) || ValueOf(se.year) > ValueOf(ss.year))
  }

  predicate IsMidnight(t: DateTime) {
    t.hour == 0 && t.minute == 0 && t.second == 0
  }

  /**
   Whether `setTime (start, end)` leaves the all-day flags set: both
   times at 00:00:00 and the end ahead of the start in its day, OR its
   month, OR its year, each compared on its own.
   */
  predicate IsAllDay(start: DateTime, end: DateTime) {
    && IsMidnight(start) && IsMidnight(end)
    && (end.day > start.day || end.month > start.month || end.year > start.year)
  }

  /**
   The test `setTime` writes on the two `splitTime` arrays, comparing
   numeric strings, decides exactly `IsAllDay` on the times themselves.
   */
  lemma AllDayPartsIsAllDay(start: DateTime, end: DateTime)
    requires IsValid(start) && IsValid(end)
    ensures AllDayParts(SplitTime(start), SplitTime(end)) <==> IsAllDay(start, end)
  {
  }

  /** The calendar date of `a` is strictly before that of `b`. */
  predicate DateBefore(a: DateTime, b: DateTime) {
    a.year < b.year || (a.year == b.year && (a.month < b.month || (a.month == b.month && a.day < b.day)))
  }

  /** Midnight to midnight of a later date is always all-day. */
  lemma LaterMidnightIsAllDay(start: DateTime, end: DateTime)
    requires IsValid(start) && IsValid(end)
    requires IsMidnight(start) && IsMidnight(end) && DateBefore(start, end)
    ensures IsAllDay(start, end)
  {
  }

  /**
   The three comparisons are not a date comparison: an end on an EARLIER
   date still counts as all-day when its month (or day) number is larger.
   */
  lemma AllDayAcceptsEarlierEnd()
    ensures var start, end := DateTime(2021, 1, 1, 0, 0, 0), DateTime(2020, 2, 1, 0, 0, 0);
            IsValid(start) && IsValid(end) && DateBefore(end, start) && IsAllDay(start, end)
  {
  }

  /** Same day, one hour later, is not all-day. */
  lemma OneHourIsNotAllDay(start: DateTime)
    requires IsValid(start) && IsMidnight(start)
    ensures IsValid(start.(hour := 1)) && !IsAllDay(start, start.(hour := 1))
  {
  }
}
