/**
 * Timestamps of the form `YYYY-MM-DDTHH:MM:SSZ` (the form the scraper
 * writes, an RFC 3339 section 5.6 `date-time` in UTC), read the way the
 * back end reads them with `datetime.fromisoformat(ts.replace('Z', '+00:00'))`,
 * and the calendar arithmetic behind `weekday()` and `strftime('%A')`
 * (proleptic Gregorian calendar, day 1 = Monday 0001-01-01).
 */
module Timestamps {
  import opened Wrappers

  datatype DateTime = DateTime(year: int, month: int, day: int, hour: int, minute: int, second: int)

  predicate IsLeap(y: int)
  {
    y % 4 == 0 && (y % 100 != 0 || y % 400 == 0)
  }

  function DaysInMonth(y: int, m: int): int
    requires 1 <= m <= 12
  {
    if m == 2 then (if IsLeap(y) then 29 else 28)
    else if m == 4 || m == 6 || m == 9 || m == 11 then 30
    else 31
  }

  /** The values a Python `datetime` can hold (years 1 to 9999). */
  predicate Valid(dt: DateTime)
  {
    && 1 <= dt.year <= 9999
    && 1 <= dt.month <= 12
    && 1 <= dt.day <= DaysInMonth(dt.year, dt.month)
    && 0 <= dt.hour < 24
    && 0 <= dt.minute < 60
    && 0 <= dt.second < 60
  }

  /** Days in the years before `y`. */
  function DaysBeforeYear(y: int): int
    requires y >= 1
  {
    var p := y - 1;
    365 * p + p / 4 - p / 100 + p / 400
  }

  /** Days in the months of year `y` before month `m`. */
  function DaysBeforeMonth(y: int, m: int): int
    requires 1 <= m <= 12
  {
    [0, 31, 59, 90, 120, 151, 181, 212, 243, 273, 304, 334][m - 1]
    + (if m > 2 && IsLeap(y) then 1 else 0)
  }

  /** `date.toordinal()`: 0001-01-01 is day 1. */
  function Ordinal(dt: DateTime): int
    requires Valid(dt)
  {
    DaysBeforeYear(dt.year) + DaysBeforeMonth(dt.year, dt.month) + dt.day
  }

  /** `datetime.weekday()`: Monday is 0, Sunday is 6. */
  function Weekday(dt: DateTime): (w: int)
    requires Valid(dt)
    ensures 0 <= w < 7
  {
    (Ordinal(dt) + 6) % 7
  }

  /** The English weekday names, Monday first, as `strftime('%A')` spells them. */
  const DayNames: seq<string> := ["Monday", "Tuesday", "Wednesday", "Thursday", "Friday", "Saturday", "Sunday"]

  /** `strftime('%A')`. */
  function DayName(dt: DateTime): (name: string)
    requires Valid(dt)
    ensures name in DayNames
  {
    DayNames[Weekday(dt)]
  }

  /** The same time of day on the following calendar day. */
  function NextDay(dt: DateTime): (next: DateTime)
    requires Valid(dt)
    requires dt.year < 9999 || dt.month < 12 || dt.day < 31
    ensures Valid(next)
  {
    if dt.day < DaysInMonth(dt.year, dt.month) then dt.(day := dt.day + 1)
    else if dt.month < 12 then dt.(month := dt.month + 1, day := 1)
    else dt.(year := dt.year + 1, month := 1, day := 1)
  }

  lemma {:induction false} DaysBeforeNextYear(y: int)
    requires y >= 1
    ensures DaysBeforeYear(y + 1) == DaysBeforeYear(y) + (if IsLeap(y) then 366 else 365)
  {
    DivStep4(y);
    DivStep100(y);
    DivStep400(y);
  }

  /** From `y - 1` to `y` the count of leap-rule multiples grows exactly at multiples. */
  lemma {:induction false} DivStep4(y: int)
    ensures y / 4 == (y - 1) / 4 + (if y % 4 == 0 then 1 else 0)
  {
  }

  lemma {:induction false} DivStep100(y: int)
    ensures y / 100 == (y - 1) / 100 + (if y % 100 == 0 then 1 else 0)
    ensures y % 100 == 0 ==> y % 4 == 0
  {
  }

  lemma {:induction false} DivStep400(y: int)
    ensures y / 400 == (y - 1) / 400 + (if y % 400 == 0 then 1 else 0)
    ensures y % 400 == 0 ==> y % 100 == 0
  {
  }

  lemma {:induction false} OrdinalNextDay(dt: DateTime)
    requires Valid(dt)
    requires dt.year < 9999 || dt.month < 12 || dt.day < 31
    ensures Ordinal(NextDay(dt)) == Ordinal(dt) + 1
  {
    if dt.day == DaysInMonth(dt.year, dt.month) && dt.month == 12 {
      DaysBeforeNextYear(dt.year);
    }
  }

  /**
   * The weekday is the calendar's: 0001-01-01 was a Monday, and each day's
   * weekday follows the previous day's.
   */
  lemma {:induction false} WeekdayCalendar(dt: DateTime)
    requires Valid(dt)
    requires dt.year < 9999 || dt.month < 12 || dt.day < 31
    ensures dt.year == 1 && dt.month == 1 && dt.day == 1 ==> Weekday(dt) == 0
    ensures Weekday(NextDay(dt)) == (Weekday(dt) + 1) % 7
  {
    if dt.year == 1 && dt.month == 1 && dt.day == 1 {
      FirstDayIsMonday(dt);
    }
    WeekdayNextDay(dt);
  }

  lemma {:induction false} FirstDayIsMonday(dt: DateTime)
    requires Valid(dt) && dt.year == 1 && dt.month == 1 && dt.day == 1
    ensures Weekday(dt) == 0
  {
    assert DaysBeforeYear(1) == 0;
    assert Ordinal(dt) == 1;
  }

  lemma {:induction false} WeekdayNextDay(dt: DateTime)
    requires Valid(dt)
    requires dt.year < 9999 || dt.month < 12 || dt.day < 31
    ensures Weekday(NextDay(dt)) == (Weekday(dt) + 1) % 7
  {
    var o := Ordinal(dt);
    OrdinalNextDay(dt);
    assert Weekday(NextDay(dt)) == (o + 7) % 7;
    WeekdaySucc(o + 6);
  }

  lemma {:induction false} WeekdaySucc(x: int)
    ensures (x + 1) % 7 == (x % 7 + 1) % 7
  {
    var q := x / 7;
    assert x == 7 * q + x % 7;
  }

  predicate IsDigit(c: char)
  {
    '0' <= c <= '9'
  }

  predicate AllDigits(s: string)
  {
    forall i :: 0 <= i < |s| ==> IsDigit(s[i])
  }

  function DigitChar(d: int): (c: char)
    requires 0 <= d < 10
    ensures IsDigit(c)
  {
    ('0' as int + d) as char
  }

  /** The decimal value of a string of digits. */
  function Number(s: string): nat
    requires AllDigits(s)
  {
    if |s| == 0 then 0 else Number(s[..|s| - 1]) * 10 + (s[|s| - 1] as int - '0' as int)
  }

  function Pow10(w: nat): nat
  {
    if w == 0 then 1 else 10 * Pow10(w - 1)
  }

  /** `n` in decimal, zero-padded to `width` digits (`%04d`, `%02d`). */
  function Pad(n: nat, width: nat): (s: string)
    ensures |s| == width && AllDigits(s)
  {
    if width == 0 then [] else Pad(n / 10, width - 1) + [DigitChar(n % 10)]
  }

  lemma {:induction false} NumberOfPad(n: nat, width: nat)
    requires n < Pow10(width)
    ensures Number(Pad(n, width)) == n
  {
    if width > 0 {
      NumberOfPad(n / 10, width - 1);
      var s := Pad(n, width);
      assert s[..width - 1] == Pad(n / 10, width - 1);
    }
  }

  lemma {:induction false} PadOfNumber(s: string)
    requires AllDigits(s)
    ensures Number(s) < Pow10(|s|)
    ensures Pad(Number(s), |s|) == s
  {
    if |s| > 0 {
      var init := s[..|s| - 1];
      PadOfNumber(init);
      var d := s[|s| - 1] as int - '0' as int;
      assert (Number(init) * 10 + d) / 10 == Number(init);
      assert (Number(init) * 10 + d) % 10 == d;
      assert s == init + [s[|s| - 1]];
    }
  }

  /** The only strings accepted: `YYYY-MM-DDTHH:MM:SSZ` naming a real date and time. */
  function ParseTimestamp(s: string): (r: Option<DateTime>)
    ensures r.Some? ==> Valid(r.value)
  {
    if |s| == 20 && s[4] == '-' && s[7] == '-' && s[10] == 'T' && s[13] == ':' && s[16] == ':' && s[19] == 'Z'
       && AllDigits(s[0..4]) && AllDigits(s[5..7]) && AllDigits(s[8..10])
       && AllDigits(s[11..13]) && AllDigits(s[14..16]) && AllDigits(s[17..19])
    then
      var dt := DateTime(Number(s[0..4]), Number(s[5..7]), Number(s[8..10]),
                         Number(s[11..13]), Number(s[14..16]), Number(s[17..19]));
      if Valid(dt) then Some(dt) else None
    else None
  }

  /** `strftime('%Y-%m-%dT%H:%M:%SZ')`. */
  function FormatTimestamp(dt: DateTime): (s: string)
    requires Valid(dt)
    ensures |s| == 20
    ensures s[4] == '-' && s[7] == '-' && s[10] == 'T' && s[13] == ':' && s[16] == ':' && s[19] == 'Z'
  {
    Pad(dt.year, 4) + "-" + Pad(dt.month, 2) + "-" + Pad(dt.day, 2) + "T"
    + Pad(dt.hour, 2) + ":" + Pad(dt.minute, 2) + ":" + Pad(dt.second, 2) + "Z"
  }

  /** Every formatted timestamp reads back as the date and time it was made from. */
  lemma {:induction false} ParseFormat(dt: DateTime)
    requires Valid(dt)
    ensures ParseTimestamp(FormatTimestamp(dt)) == Some(dt)
  {
    var s := FormatTimestamp(dt);
    assert s[0..4] == Pad(dt.year, 4);
    assert s[5..7] == Pad(dt.month, 2);
    assert s[8..10] == Pad(dt.day, 2);
    assert s[11..13] == Pad(dt.hour, 2);
    assert s[14..16] == Pad(dt.minute, 2);
    assert s[17..19] == Pad(dt.second, 2);
    NumberOfPad(dt.year, 4);
    NumberOfPad(dt.month, 2);
    NumberOfPad(dt.day, 2);
    NumberOfPad(dt.hour, 2);
    NumberOfPad(dt.minute, 2);
    NumberOfPad(dt.second, 2);
  }

  /** Every accepted string is the canonical spelling of what it names. */
  lemma {:induction false} FormatParse(s: string)
    requires ParseTimestamp(s).Some?
    ensures Valid(ParseTimestamp(s).value)
    ensures FormatTimestamp(ParseTimestamp(s).value) == s
  {
    PadOfNumber(s[0..4]);
    PadOfNumber(s[5..7]);
    PadOfNumber(s[8..10]);
    PadOfNumber(s[11..13]);
    PadOfNumber(s[14..16]);
    PadOfNumber(s[17..19]);
    Pieces(s);
  }

  /** A string with the separators of the fixed form is its fields joined by them. */
  lemma {:induction false} Pieces(s: string)
    requires |s| == 20 && s[4] == '-' && s[7] == '-' && s[10] == 'T' && s[13] == ':' && s[16] == ':' && s[19] == 'Z'
    ensures s == s[0..4] + "-" + s[5..7] + "-" + s[8..10] + "T" + s[11..13] + ":" + s[14..16] + ":" + s[17..19] + "Z"
  {
    assert s[..5] == s[0..4] + "-";
    assert s[..7] == s[..5] + s[5..7];
    assert s[..8] == s[..7] + "-";
    assert s[..10] == s[..8] + s[8..10];
    assert s[..11] == s[..10] + "T";
    assert s[..13] == s[..11] + s[11..13];
    assert s[..14] == s[..13] + ":";
    assert s[..16] == s[..14] + s[14..16];
    assert s[..17] == s[..16] + ":";
    assert s[..19] == s[..17] + s[17..19];
    assert s == s[..19] + "Z";
  }
}
