/**
 * Calendar timestamps as Python's `datetime` holds them (second precision,
 * UTC), the ISO-8601 text form `datetime.isoformat()` writes, the subset of
 * `datetime.fromisoformat()` the store reads back, and the conversion of
 * feedparser's time structures.
 */
module Timestamps {
  import opened Wrappers
  import Text

  /** The fields of a `datetime` before range checking. */
  datatype Moment = Moment(year: int, month: int, day: int, hour: int, minute: int, second: int)

  datatype CalendarDate = CalendarDate(year: int, month: int, day: int)

  predicate IsLeapYear(y: int) {
    y % 4 == 0 && (y % 100 != 0 || y % 400 == 0)
  }

  function DaysInMonth(y: int, m: int): (n: int)
    requires 1 <= m <= 12
    ensures 28 <= n <= 31
  {
    if m == 2 then (if IsLeapYear(y) then 29 else 28)
    else if m == 4 || m == 6 || m == 9 || m == 11 then 30
    else 31
  }

  /** The ranges `datetime(...)` accepts (MINYEAR 1 to MAXYEAR 9999); anything else raises ValueError. */
  predicate ValidDate(y: int, m: int, d: int) {
    1 <= y <= 9999 && 1 <= m <= 12 && 1 <= d <= DaysInMonth(y, m)
  }

  predicate ValidMoment(t: Moment) {
    && ValidDate(t.year, t.month, t.day)
    && 0 <= t.hour <= 23 && 0 <= t.minute <= 59 && 0 <= t.second <= 59
  }

  /** A `datetime` that Python would accept, at second precision, in UTC. */
  type DateTime = t: Moment | ValidMoment(t) witness Moment(1970, 1, 1, 0, 0, 0)

  /** A `date`. */
  type Date = d: CalendarDate | ValidDate(d.year, d.month, d.day) witness CalendarDate(1970, 1, 1)

  function DateOf(t: DateTime): Date {
    CalendarDate(t.year, t.month, t.day)
  }

  function DaysBeforeMonth(y: int, m: int): int
    requires 1 <= m <= 12
  {
    if m == 1 then 0 else DaysBeforeMonth(y, m - 1) + DaysInMonth(y, m - 1)
  }

  /** `date.toordinal()`: day 1 is 0001-01-01 of the proleptic Gregorian calendar. */
  function Ordinal(d: Date): int {
    var y := d.year - 1;
    y * 365 + y / 4 - y / 100 + y / 400 + DaysBeforeMonth(d.year, d.month) + d.day
  }

  /** Seconds since 0001-01-01T00:00:00: the order in which the store sorts timestamps. */
  function Instant(t: DateTime): int {
    Ordinal(DateOf(t)) * 86400 + t.hour * 3600 + t.minute * 60 + t.second
  }

  // ---- fixed-width decimal fields ----

  function Pad2(n: int): (s: string)
    requires 0 <= n < 100
    ensures |s| == 2
  {
    [Text.Digit(n / 10), Text.Digit(n % 10)]
  }

  function Pad4(n: int): (s: string)
    requires 0 <= n < 10000
    ensures |s| == 4
  {
    Pad2(n / 100) + Pad2(n % 100)
  }

  predicate IsDigit(c: char) {
    '0' <= c <= '9'
  }

  function DigitValue(c: char): int {
    c as int - 48
  }

  /** Two digits starting at index `k`. */
  predicate Digits2(s: string, k: int) {
    0 <= k && k + 2 <= |s| && IsDigit(s[k]) && IsDigit(s[k + 1])
  }

  function Num2(s: string, k: int): int
    requires Digits2(s, k)
  {
    10 * DigitValue(s[k]) + DigitValue(s[k + 1])
  }

  function Num4(s: string, k: int): int
    requires Digits2(s, k) && Digits2(s, k + 2)
  {
    100 * Num2(s, k) + Num2(s, k + 2)
  }

  lemma Num2OfPad2(n: int, a: string, b: string)
    requires 0 <= n < 100
    ensures Digits2(a + Pad2(n) + b, |a|) && Num2(a + Pad2(n) + b, |a|) == n
  {
    var s := a + Pad2(n) + b;
    assert s[|a|] == Text.Digit(n / 10) && s[|a| + 1] == Text.Digit(n % 10);
  }

  lemma Num4OfPad4(n: int, b: string)
    requires 0 <= n < 10000
    ensures Digits2(Pad4(n) + b, 0) && Digits2(Pad4(n) + b, 2) && Num4(Pad4(n) + b, 0) == n
  {
    var s := Pad4(n) + b;
    assert s == [] + Pad2(n / 100) + (Pad2(n % 100) + b);
    Num2OfPad2(n / 100, [], Pad2(n % 100) + b);
    assert s == Pad2(n / 100) + Pad2(n % 100) + b;
    Num2OfPad2(n % 100, Pad2(n / 100), b);
  }

  // ---- text forms ----

  /** Year, month and day written as `YYYY-MM-DD`, whether or not they form a date. */
  function DateText(y: int, m: int, d: int): (s: string)
    requires 0 <= y < 10000 && 0 <= m < 100 && 0 <= d < 100
    ensures |s| == 10 && s[4] == '-' && s[7] == '-'
  {
    Pad4(y) + "-" + Pad2(m) + "-" + Pad2(d)
  }

  /** Hour, minute and second written as `HH:MM:SS`. */
  function TimeText(h: int, mi: int, se: int): (s: string)
    requires 0 <= h < 100 && 0 <= mi < 100 && 0 <= se < 100
    ensures |s| == 8 && s[2] == ':' && s[5] == ':'
  {
    Pad2(h) + ":" + Pad2(mi) + ":" + Pad2(se)
  }

  /** `date.isoformat()`: `YYYY-MM-DD`. */
  function IsoDate(d: Date): (s: string)
    ensures |s| == 10 && s[4] == '-' && s[7] == '-'
  {
    DateText(d.year, d.month, d.day)
  }

  /** `datetime.isoformat()` of an aware UTC datetime: `YYYY-MM-DDTHH:MM:SS+00:00`. */
  function IsoDateTimeUtc(t: DateTime): (s: string)
    ensures |s| == 25 && s[10] == 'T' && s[19..] == "+00:00"
  {
    IsoDate(DateOf(t)) + "T" + TimeText(t.hour, t.minute, t.second) + "+00:00"
  }

  /** `strftime('%Y-%m-%d %H:%M')`. */
  function MinuteStamp(t: DateTime): (s: string)
    ensures |s| == 16
  {
    IsoDate(DateOf(t)) + " " + Pad2(t.hour) + ":" + Pad2(t.minute)
  }

  /** `strftime('%Y-%m-%d %H:%M:%S')`. */
  function SecondStamp(t: DateTime): (s: string)
    ensures |s| == 19
  {
    MinuteStamp(t) + ":" + Pad2(t.second)
  }

  // ---- feedparser time structures ----

  /** The six leading fields of a `time.struct_time`. */
  datatype TimeStruct = TimeStruct(tmYear: int, tmMon: int, tmMday: int, tmHour: int, tmMin: int, tmSec: int)

  function MomentOf(v: TimeStruct): Moment {
    Moment(v.tmYear, v.tmMon, v.tmMday, v.tmHour, v.tmMin, v.tmSec)
  }

  /**
   * `_to_iso8601`: no structure gives no timestamp; a structure whose fields
   * `datetime` rejects (month 13, 30 February, second 60, ...) gives none
   * either; any other is written as a UTC ISO-8601 string.
   */
  function ToIso8601(value: Option<TimeStruct>): (r: Option<string>)
    ensures r.Some? <==> value.Some? && ValidMoment(MomentOf(value.value))
    ensures r.Some? ==> |r.value| == 25 && r.value[10] == 'T' && r.value[19..] == "+00:00"
  {
    match value
    case None => None
    case Some(v) =>
      var t := MomentOf(v);
      if ValidMoment(t) then Some(IsoDateTimeUtc(t)) else None
  }

  // ---- parsing ----

  predicate DatePartShape(s: string) {
    |s| >= 10 && Digits2(s, 0) && Digits2(s, 2) && s[4] == '-' && Digits2(s, 5) && s[7] == '-' && Digits2(s, 8)
  }

  /** `HH:MM:SS` after the separator at index 10, which may be any character. */
  predicate TimePartShape(s: string) {
    |s| >= 19 && Digits2(s, 11) && s[13] == ':' && Digits2(s, 14) && s[16] == ':' && Digits2(s, 17)
  }

  /** The UTC designators accepted after the time: none, `Z`, or `+00:00`. */
  predicate UtcSuffix(z: string) {
    z == "" || z == "Z" || z == "+00:00"
  }

  function Checked(t: Moment): (r: Option<DateTime>)
    ensures r.Some? <==> ValidMoment(t)
    ensures r.Some? ==> r.value == t
  {
    if ValidMoment(t) then Some(t) else None
  }

  /** The fields written in text of the date-only form. */
  function DateFields(s: string): Moment
    requires DatePartShape(s)
  {
    Moment(Num4(s, 0), Num2(s, 5), Num2(s, 8), 0, 0, 0)
  }

  /** The fields written in text of the date-and-time form. */
  function DateTimeFields(s: string): Moment
    requires DatePartShape(s) && TimePartShape(s)
  {
    Moment(Num4(s, 0), Num2(s, 5), Num2(s, 8), Num2(s, 11), Num2(s, 14), Num2(s, 17))
  }

  /**
   * `datetime.fromisoformat` on the forms this system writes and reads:
   * `YYYY-MM-DD`, and `YYYY-MM-DD?HH:MM:SS` with `?` any one character,
   * optionally followed by `Z` or `+00:00`. Text of another form, and
   * fields `datetime` rejects, give no datetime (the ValueError).
   */
  function ParseIsoDateTime(s: string): (r: Option<DateTime>)
    ensures !DatePartShape(s) ==> r == None
    ensures DatePartShape(s) && |s| == 10 ==>
      (r.Some? <==> ValidMoment(DateFields(s))) && (r.Some? ==> r.value == DateFields(s))
    ensures DatePartShape(s) && TimePartShape(s) && UtcSuffix(s[19..]) ==>
      (r.Some? <==> ValidMoment(DateTimeFields(s))) && (r.Some? ==> r.value == DateTimeFields(s))
    ensures r.Some? ==> |s| == 10 || (TimePartShape(s) && UtcSuffix(s[19..]))
  {
    if !DatePartShape(s) then None
    else if |s| == 10 then Checked(DateFields(s))
    else if TimePartShape(s) && UtcSuffix(s[19..]) then Checked(DateTimeFields(s))
    else None
  }

  /** `_parse_datetime`: `None` or `""` gives no datetime; any other text is handed to `fromisoformat`. */
  function ParseDateTime(value: Option<string>): (r: Option<DateTime>)
    ensures !Present(value) ==> r == None
    ensures Present(value) ==> r == ParseIsoDateTime(value.value)
    ensures r.Some? ==> |value.value| in {10, 19, 20, 25}
  {
    if !Present(value) then None else ParseIsoDateTime(value.value)
  }

  /** The fields of text that starts with `DateText(y, m, d)` read back as y, m and d. */
  lemma DatePartOf(y: int, m: int, d: int, rest: string)
    requires 0 <= y < 10000 && 0 <= m < 100 && 0 <= d < 100
    ensures var s := DateText(y, m, d) + rest;
      && DatePartShape(s)
      && Num4(s, 0) == y && Num2(s, 5) == m && Num2(s, 8) == d
  {
    var s := DateText(y, m, d) + rest;
    var r1 := "-" + Pad2(m) + "-" + Pad2(d) + rest;
    assert s == Pad4(y) + r1;
    Num4OfPad4(y, r1);
    var r2 := "-" + Pad2(d) + rest;
    assert s == Pad4(y) + "-" + Pad2(m) + r2;
    Num2OfPad2(m, Pad4(y) + "-", r2);
    assert s == Pad4(y) + "-" + Pad2(m) + "-" + Pad2(d) + rest;
    Num2OfPad2(d, Pad4(y) + "-" + Pad2(m) + "-", rest);
  }

  /** The time fields after a ten-character date and a separator read back as the time written. */
  lemma TimePartOf(date: string, sep: char, h: int, mi: int, se: int, suffix: string)
    requires |date| == 10
    requires 0 <= h < 100 && 0 <= mi < 100 && 0 <= se < 100
    ensures var s := date + [sep] + TimeText(h, mi, se) + suffix;
      && TimePartShape(s) && s[19..] == suffix
      && Num2(s, 11) == h && Num2(s, 14) == mi && Num2(s, 17) == se
  {
    var s := date + [sep] + TimeText(h, mi, se) + suffix;
    var r1 := ":" + Pad2(mi) + ":" + Pad2(se) + suffix;
    assert s == date + [sep] + Pad2(h) + r1;
    Num2OfPad2(h, date + [sep], r1);
    var r2 := ":" + Pad2(se) + suffix;
    assert s == date + [sep] + Pad2(h) + ":" + Pad2(mi) + r2;
    Num2OfPad2(mi, date + [sep] + Pad2(h) + ":", r2);
    assert s == date + [sep] + Pad2(h) + ":" + Pad2(mi) + ":" + Pad2(se) + suffix;
    Num2OfPad2(se, date + [sep] + Pad2(h) + ":" + Pad2(mi) + ":", suffix);
    assert s[19..] == suffix;
  }

  /**
   * Date-only text: `YYYY-MM-DD` parses to midnight of that day exactly
   * when the fields form a date, and to nothing otherwise (`2025-02-30`,
   * month 13, year 0).
   */
  lemma ParseOfDateText(y: int, m: int, d: int)
    requires 0 <= y < 10000 && 0 <= m < 100 && 0 <= d < 100
    ensures ParseIsoDateTime(DateText(y, m, d)) == Checked(Moment(y, m, d, 0, 0, 0))
  {
    DatePartOf(y, m, d, []);
    assert DateText(y, m, d) + [] == DateText(y, m, d);
  }

  /**
   * Date-and-time text, with any separator and any UTC designator, parses
   * to the moment written exactly when its fields are in range (hour 24,
   * minute 60 and 31 April give nothing).
   */
  lemma ParseOfStamp(y: int, m: int, d: int, sep: char, h: int, mi: int, se: int, suffix: string)
    requires 0 <= y < 10000 && 0 <= m < 100 && 0 <= d < 100
    requires 0 <= h < 100 && 0 <= mi < 100 && 0 <= se < 100
    requires UtcSuffix(suffix)
    ensures ParseIsoDateTime(DateText(y, m, d) + [sep] + TimeText(h, mi, se) + suffix) == Checked(Moment(y, m, d, h, mi, se))
  {
    var date := DateText(y, m, d);
    var rest := [sep] + TimeText(h, mi, se) + suffix;
    var s := date + [sep] + TimeText(h, mi, se) + suffix;
    assert s == date + rest;
    DatePartOf(y, m, d, rest);
    TimePartOf(date, sep, h, mi, se, suffix);
  }

  /** Reading back what `IsoDateTimeUtc` writes gives the same datetime. */
  lemma ParseOfIsoDateTimeUtc(t: DateTime)
    ensures ParseIsoDateTime(IsoDateTimeUtc(t)) == Some(t)
  {
    ParseOfStamp(t.year, t.month, t.day, 'T', t.hour, t.minute, t.second, "+00:00");
  }

  /**
   * Round trip across the pipeline: the `published` text the feed reader
   * writes for a valid time structure is read back by the store as exactly
   * that moment.
   */
  lemma ParseOfToIso8601(v: TimeStruct)
    requires ValidMoment(MomentOf(v))
    ensures ParseDateTime(ToIso8601(Some(v))) == Some(MomentOf(v))
  {
    ParseOfIsoDateTimeUtc(MomentOf(v));
  }

  /** The thirtieth of February is not a date, so its text parses to nothing. */
  lemma FebruaryThirtiethRejected()
    ensures ParseDateTime(Some("2025-02-30")) == None
  {
    ParseOfDateText(2025, 2, 30);
    assert DateText(2025, 2, 30) == "2025-02-30";
  }
}
