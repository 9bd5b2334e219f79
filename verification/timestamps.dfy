/** Calendar timestamps as pandas holds them, and the fixed-width
    `%Y-%m-%d<sep>%H:%M:%S` rendering that `strftime` produces from them. */
module Timestamps {
  import opened Wrappers

  /** A broken-down timestamp; `micros` is the sub-second part that the
      second-precision rendering drops. */
  datatype DateTime = DateTime(year: nat, month: nat, day: nat,
                               hour: nat, minute: nat, second: nat, micros: nat)

  predicate IsLeapYear(y: nat) {
    y % 4 == 0 && (y % 100 != 0 || y % 400 == 0)
  }

  function DaysInMonth(y: nat, m: nat): nat
    requires 1 <= m <= 12
  {
    if m == 2 then (if IsLeapYear(y) then 29 else 28)
    else if m == 4 || m == 6 || m == 9 || m == 11 then 30
    else 31
  }

  /** A timestamp that names a real instant of the proleptic Gregorian
      calendar with a four-digit year. */
  predicate Valid(dt: DateTime) {
    && 1 <= dt.year <= 9999
    && 1 <= dt.month <= 12
    && 1 <= dt.day <= DaysInMonth(dt.year, dt.month)
    && dt.hour < 24 && dt.minute < 60 && dt.second < 60
    && dt.micros < 1000000
  }

  /** The same instant with the sub-second part cut off. */
  function Truncated(dt: DateTime): DateTime {
    dt.(micros := 0)
  }

  /** Days before the first of month `m` in year `y`. */
  function DaysBeforeMonth(y: nat, m: nat): nat
    requires 1 <= m <= 12
    decreases m
  {
    if m == 1 then 0 else DaysBeforeMonth(y, m - 1) + DaysInMonth(y, m - 1)
  }

  /** Days from 0001-01-01 to the first of January of year `y`. */
  function DaysBeforeYear(y: nat): nat
    requires y >= 1
  {
    var p := y - 1;
    365 * p + p / 4 - p / 100 + p / 400
  }

  /** Microseconds since 0001-01-01 00:00:00, the scale on which "one second
      apart" is measured. */
  function EpochMicros(dt: DateTime): int
    requires Valid(dt)
  {
    var days := DaysBeforeYear(dt.year) + DaysBeforeMonth(dt.year, dt.month) + dt.day - 1;
    (((days * 24 + dt.hour) * 60 + dt.minute) * 60 + dt.second) * 1000000 + dt.micros
  }

  function Digit(d: nat): char
    requires d < 10
  {
    ('0' as int + d) as char
  }

  predicate IsDigit(c: char) {
    '0' <= c <= '9'
  }

  function Pow10(w: nat): nat {
    if w == 0 then 1 else 10 * Pow10(w - 1)
  }

  /** The last `w` decimal digits of `n`, zero-padded on the left. */
  function Pad(n: nat, w: nat): (s: string)
    ensures |s| == w
    ensures forall i :: 0 <= i < |s| ==> IsDigit(s[i])
  {
    if w == 0 then "" else Pad(n / 10, w - 1) + [Digit(n % 10)]
  }

  /** Reads a string of decimal digits back as a number. */
  function DigitsValue(s: string): Option<nat> {
    if |s| == 0 then Some(0)
    else if !IsDigit(s[|s| - 1]) then None
    else
      match DigitsValue(s[..|s| - 1])
      case None => None
      case Some(v) => Some(10 * v + (s[|s| - 1] as int - '0' as int))
  }

  lemma {:induction false} DigitsValuePad(n: nat, w: nat)
    requires n < Pow10(w)
    ensures DigitsValue(Pad(n, w)) == Some(n)
  {
    if w > 0 {
      var s := Pad(n, w);
      assert s[..|s| - 1] == Pad(n / 10, w - 1);
      DigitsValuePad(n / 10, w - 1);
    }
  }

  /** `strftime('%Y-%m-%d<sep>%H:%M:%S')`: the date, `sep`, and the time of
      day to the second. */
  function Format(dt: DateTime, sep: char): (s: string)
    ensures |s| == 19
    ensures s[4] == '-' && s[7] == '-' && s[10] == sep && s[13] == ':' && s[16] == ':'
  {
    Pad(dt.year, 4) + "-" + Pad(dt.month, 2) + "-" + Pad(dt.day, 2) + [sep]
      + Pad(dt.hour, 2) + ":" + Pad(dt.minute, 2) + ":" + Pad(dt.second, 2)
  }

  /** Reads back a rendering of `Format` with separator `sep`; the sub-second
      part is absent from the text and comes back as zero. */
  function Parse(s: string, sep: char): Option<DateTime> {
    if |s| != 19 || s[4] != '-' || s[7] != '-' || s[10] != sep || s[13] != ':' || s[16] != ':' then None
    else
      match (DigitsValue(s[0..4]), DigitsValue(s[5..7]), DigitsValue(s[8..10]),
             DigitsValue(s[11..13]), DigitsValue(s[14..16]), DigitsValue(s[17..19]))
      case (Some(y), Some(mo), Some(d), Some(h), Some(mi), Some(sec)) =>
        Some(DateTime(y, mo, d, h, mi, sec, 0))
      case _ => None
  }

  /** Rendering a valid timestamp loses exactly its sub-second part. */
  lemma ParseFormat(dt: DateTime, sep: char)
    requires Valid(dt)
    ensures Parse(Format(dt, sep), sep) == Some(Truncated(dt))
  {
    var s := Format(dt, sep);
    assert s[0..4] == Pad(dt.year, 4);
    assert s[5..7] == Pad(dt.month, 2);
    assert s[8..10] == Pad(dt.day, 2);
    assert s[11..13] == Pad(dt.hour, 2);
    assert s[14..16] == Pad(dt.minute, 2);
    assert s[17..19] == Pad(dt.second, 2);
    assert Pow10(2) == 100 && Pow10(4) == 10000;
    DigitsValuePad(dt.year, 4);
    DigitsValuePad(dt.month, 2);
    DigitsValuePad(dt.day, 2);
    DigitsValuePad(dt.hour, 2);
    DigitsValuePad(dt.minute, 2);
    DigitsValuePad(dt.second, 2);
  }

  /** Two valid timestamps render alike exactly when they agree to the second. */
  lemma FormatInjective(a: DateTime, b: DateTime, sep: char)
    requires Valid(a) && Valid(b)
    ensures Format(a, sep) == Format(b, sep) <==> Truncated(a) == Truncated(b)
  {
    if Format(a, sep) == Format(b, sep) {
      ParseFormat(a, sep);
      ParseFormat(b, sep);
    }
  }

  /** Instants that agree to the second lie less than one second apart, so
      instants at least one second apart never render alike. */
  lemma SameSecondWithinOneSecond(a: DateTime, b: DateTime)
    requires Valid(a) && Valid(b)
    ensures Truncated(a) == Truncated(b) ==> -1000000 < EpochMicros(a) - EpochMicros(b) < 1000000
  {
  }
}
