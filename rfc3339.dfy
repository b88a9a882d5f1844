/**
 * Internet date-time text, as in section 5.6 of RFC 3339, standing in for
 * chrono's `DateTime::parse_from_rfc3339` and `to_rfc3339`.
 *
 *   date-time = YYYY "-" MM "-" DD ("T" / "t") hh ":" mm ":" ss ["." 1*DIGIT] ("Z" / "z" / ("+" / "-") hh ":" mm)
 *
 * Parsing is syntactic and checks the calendar; the formatter writes the
 * canonical form chrono uses (fraction of 0, 3, 6 or 9 digits, offset always
 * as "+hh:mm" or "-hh:mm").
 */
module Rfc3339 {
  import opened Wrappers

  /** A date-time as written: calendar fields, nanoseconds, and the offset from UTC in minutes. */
  datatype DateTime = DateTime(
    year: int, month: int, day: int,
    hour: int, minute: int, second: int,
    nanos: int, offset: int)

  predicate IsLeapYear(y: int) {
    y % 4 == 0 && (y % 100 != 0 || y % 400 == 0)
  }

  function DaysInMonth(y: int, m: int): (d: int)
    requires 1 <= m <= 12
    ensures 28 <= d <= 31
  {
    if m == 2 then (if IsLeapYear(y) then 29 else 28)
    else if m == 4 || m == 6 || m == 9 || m == 11 then 30
    else 31
  }

  /** The values a parse can produce; second 60 is a leap second. */
  predicate Valid(dt: DateTime) {
    && 0 <= dt.year <= 9999
    && 1 <= dt.month <= 12
    && 1 <= dt.day <= DaysInMonth(dt.year, dt.month)
    && 0 <= dt.hour <= 23
    && 0 <= dt.minute <= 59
    && 0 <= dt.second <= 60
    && 0 <= dt.nanos < 1_000_000_000
    && -1440 < dt.offset < 1440
  }

  /** A well-formed date-time, the counterpart of chrono's `DateTime` value. */
  type Timestamp = dt: DateTime | Valid(dt) witness DateTime(1970, 1, 1, 0, 0, 0, 0, 0)

  // ---------------------------------------------------------------- digits

  predicate IsDigit(c: char) {
    '0' <= c <= '9'
  }

  predicate AllDigits(s: string) {
    forall i | 0 <= i < |s| :: IsDigit(s[i])
  }

  function DigitValue(c: char): (d: nat)
    requires IsDigit(c)
    ensures d < 10
  {
    c as int - '0' as int
  }

  function DigitChar(d: nat): (c: char)
    requires d < 10
    ensures IsDigit(c) && DigitValue(c) == d
  {
    ('0' as int + d) as char
  }

  function Pow10(n: nat): (p: nat)
    ensures p >= 1
  {
    if n == 0 then 1 else 10 * Pow10(n - 1)
  }

  /** The number a string of decimal digits denotes. */
  function Number(s: string): nat
    requires AllDigits(s)
  {
    if s == [] then 0 else 10 * Number(s[..|s| - 1]) + DigitValue(s[|s| - 1])
  }

  /** Two-digit number at positions i and i + 1. */
  function Number2(s: string, i: nat): nat
    requires i + 2 <= |s| && IsDigit(s[i]) && IsDigit(s[i + 1])
  {
    10 * DigitValue(s[i]) + DigitValue(s[i + 1])
  }

  /** Four-digit number at positions i to i + 3. */
  function Number4(s: string, i: nat): nat
    requires i + 4 <= |s| && IsDigit(s[i]) && IsDigit(s[i + 1]) && IsDigit(s[i + 2]) && IsDigit(s[i + 3])
  {
    1000 * DigitValue(s[i]) + 100 * DigitValue(s[i + 1]) + 10 * DigitValue(s[i + 2]) + DigitValue(s[i + 3])
  }

  /** The `width` lowest decimal digits of n, most significant first. */
  function Digits(n: nat, width: nat): (s: string)
    ensures |s| == width && AllDigits(s)
  {
    if width == 0 then [] else Digits(n / 10, width - 1) + [DigitChar(n % 10)]
  }

  /** Number of decimal digits at the front of s. */
  function LeadingDigits(s: string): (k: nat)
    ensures k <= |s| && AllDigits(s[..k])
    ensures k < |s| ==> !IsDigit(s[k])
  {
    if s == [] || !IsDigit(s[0]) then 0
    else
      var k := 1 + LeadingDigits(s[1..]);
      assert s[..k] == [s[0]] + s[1..][..k - 1];
      k
  }

  // ---------------------------------------------------------------- parsing

  /** Nanoseconds denoted by the digits after the decimal point; digits past the ninth are ignored. */
  function FractionNanos(digits: string): (n: nat)
    requires AllDigits(digits)
  {
    var significant := if |digits| <= 9 then digits else digits[..9];
    Number(significant) * Pow10(9 - |significant|)
  }

  /** The optional fraction after the seconds: its nanoseconds and what follows it. */
  function ParseFraction(rest: string): Option<(nat, string)>
  {
    if |rest| > 0 && rest[0] == '.' then
      var k := LeadingDigits(rest[1..]);
      assert rest[1..1 + k] == rest[1..][..k];
      if k == 0 then None else Some((FractionNanos(rest[1..1 + k]), rest[1 + k..]))
    else
      Some((0, rest))
  }

  /** The offset that ends the text, in minutes east of UTC. */
  function ParseOffset(t: string): (r: Option<int>)
    ensures r.Some? ==> -1440 < r.value < 1440
  {
    if t == "Z" || t == "z" then Some(0)
    else if |t| == 6 && (t[0] == '+' || t[0] == '-') && IsDigit(t[1]) && IsDigit(t[2])
            && t[3] == ':' && IsDigit(t[4]) && IsDigit(t[5]) then
      var h, m := Number2(t, 1), Number2(t, 4);
      if h < 24 && m < 60 then Some(if t[0] == '-' then -(60 * h + m) else 60 * h + m) else None
    else None
  }

  /** The fixed-width head `YYYY-MM-DDThh:mm:ss` is well formed. */
  predicate WellFormedHead(s: string)
    requires |s| >= 19
  {
    && IsDigit(s[0]) && IsDigit(s[1]) && IsDigit(s[2]) && IsDigit(s[3]) && s[4] == '-'
    && IsDigit(s[5]) && IsDigit(s[6]) && s[7] == '-'
    && IsDigit(s[8]) && IsDigit(s[9]) && (s[10] == 'T' || s[10] == 't')
    && IsDigit(s[11]) && IsDigit(s[12]) && s[13] == ':'
    && IsDigit(s[14]) && IsDigit(s[15]) && s[16] == ':'
    && IsDigit(s[17]) && IsDigit(s[18])
  }

  /** `DateTime::parse_from_rfc3339`: None when the text is not a valid RFC 3339 date-time. */
  function Parse(s: string): (r: Option<DateTime>)
    ensures r.Some? ==> Valid(r.value)
  {
    if |s| < 20 || !WellFormedHead(s) then None
    else
      match ParseFraction(s[19..])
      case None => None
      case Some((nanos, tail)) =>
        match ParseOffset(tail)
        case None => None
        case Some(offset) =>
          var dt := DateTime(Number4(s, 0), Number2(s, 5), Number2(s, 8),
                             Number2(s, 11), Number2(s, 14), Number2(s, 17), nanos, offset);
          if Valid(dt) then Some(dt) else None
  }

  predicate IsDateTime(s: string) {
    Parse(s).Some?
  }

  // ---------------------------------------------------------------- formatting

  /** chrono's automatic fraction: none, or 3, 6 or 9 digits, the fewest that are exact. */
  function FormatFraction(nanos: nat): string
    requires nanos < 1_000_000_000
  {
    if nanos == 0 then ""
    else if nanos % 1_000_000 == 0 then "." + Digits(nanos / 1_000_000, 3)
    else if nanos % 1_000 == 0 then "." + Digits(nanos / 1_000, 6)
    else "." + Digits(nanos, 9)
  }

  function FormatOffset(offset: int): string
    requires -1440 < offset < 1440
  {
    var a := if offset < 0 then -offset else offset;
    [if offset < 0 then '-' else '+'] + Digits(a / 60, 2) + [(':')] + Digits(a % 60, 2)
  }

  function FormatHead(dt: DateTime): (s: string)
    requires Valid(dt)
    ensures |s| == 19
  {
    Digits(dt.year, 4) + "-" + Digits(dt.month, 2) + "-" + Digits(dt.day, 2)
      + "T" + Digits(dt.hour, 2) + ":" + Digits(dt.minute, 2) + ":" + Digits(dt.second, 2)
  }

  /** `to_rfc3339`: the canonical text of a date-time. */
  function Format(dt: DateTime): (s: string)
    requires Valid(dt)
  {
    FormatHead(dt) + FormatFraction(dt.nanos) + FormatOffset(dt.offset)
  }

  // ---------------------------------------------------------------- round trip

  lemma {:induction false} NumberOfDigits(n: nat, width: nat)
    requires n < Pow10(width)
    ensures Number(Digits(n, width)) == n
  {
    if width > 0 {
      var prefix := Digits(n / 10, width - 1);
      var s := prefix + [DigitChar(n % 10)];
      assert s[..|s| - 1] == prefix;
      NumberOfDigits(n / 10, width - 1);
    }
  }

  lemma {:induction false} LeadingDigitsOfDigits(d: string, t: string)
    requires AllDigits(d)
    requires |t| > 0 && !IsDigit(t[0])
    ensures LeadingDigits(d + t) == |d|
  {
    if d == [] {
      assert d + t == t;
    } else {
      assert (d + t)[1..] == d[1..] + t;
      LeadingDigitsOfDigits(d[1..], t);
    }
  }

  lemma Pow10Values()
    ensures Pow10(0) == 1 && Pow10(3) == 1_000 && Pow10(6) == 1_000_000
  {
  }

  lemma FractionDigitsRoundTrip(value: nat, width: nat, tail: string)
    requires 1 <= width <= 9 && value < Pow10(width)
    requires |tail| > 0 && !IsDigit(tail[0])
    ensures ParseFraction("." + Digits(value, width) + tail) == Some((value * Pow10(9 - width), tail))
  {
    var d := Digits(value, width);
    var rest := "." + d + tail;
    assert rest[1..] == d + tail;
    LeadingDigitsOfDigits(d, tail);
    assert rest[1..1 + width] == d;
    assert rest[1 + width..] == tail;
    NumberOfDigits(value, width);
  }

  lemma FractionRoundTrip(nanos: nat, tail: string)
    requires nanos < 1_000_000_000
    requires |tail| > 0 && tail[0] != '.' && !IsDigit(tail[0])
    ensures ParseFraction(FormatFraction(nanos) + tail) == Some((nanos, tail))
  {
    Pow10Values();
    assert Pow10(9) == 1_000_000_000;
    if nanos == 0 {
      assert FormatFraction(nanos) + tail == tail;
    } else if nanos % 1_000_000 == 0 {
      assert nanos / 1_000_000 * Pow10(6) == nanos;
      FractionDigitsRoundTrip(nanos / 1_000_000, 3, tail);
    } else if nanos % 1_000 == 0 {
      assert nanos / 1_000 * Pow10(3) == nanos;
      FractionDigitsRoundTrip(nanos / 1_000, 6, tail);
    } else {
      FractionDigitsRoundTrip(nanos, 9, tail);
    }
  }

  lemma OffsetRoundTrip(offset: int)
    requires -1440 < offset < 1440
    ensures ParseOffset(FormatOffset(offset)) == Some(offset)
  {
    var t := FormatOffset(offset);
    var a := if offset < 0 then -offset else offset;
    TwoDigits(a / 60);
    TwoDigits(a % 60);
    assert Number2(t, 1) == a / 60 && Number2(t, 4) == a % 60;
  }

  lemma TwoDigits(n: nat)
    requires n < 100
    ensures Digits(n, 2) == [DigitChar(n / 10), DigitChar(n % 10)]
  {
    var q := n / 10;
    assert q < 10 && q % 10 == q && q / 10 == 0;
    assert Digits(q, 1) == Digits(0, 0) + [DigitChar(q)];
  }

  lemma FourDigitsText(n: nat)
    requires n < 10000
    ensures Digits(n, 4) == [DigitChar(n / 1000), DigitChar(n / 100 % 10), DigitChar(n / 10 % 10), DigitChar(n % 10)]
  {
    var q := n / 10;
    assert q / 10 == n / 100 && n / 100 / 10 == n / 1000 && n / 100 < 100;
    TwoDigits(n / 100);
    assert Digits(q, 3) == Digits(n / 100, 2) + [DigitChar(q % 10)];
  }

  /** The head spelled out character by character. */
  lemma HeadChars(dt: DateTime)
    requires Valid(dt)
    ensures FormatHead(dt) ==
              [DigitChar(dt.year / 1000), DigitChar(dt.year / 100 % 10), DigitChar(dt.year / 10 % 10), DigitChar(dt.year % 10),
               '-', DigitChar(dt.month / 10), DigitChar(dt.month % 10),
               '-', DigitChar(dt.day / 10), DigitChar(dt.day % 10),
               'T', DigitChar(dt.hour / 10), DigitChar(dt.hour % 10),
               ':', DigitChar(dt.minute / 10), DigitChar(dt.minute % 10),
               ':', DigitChar(dt.second / 10), DigitChar(dt.second % 10)]
  {
    FourDigitsText(dt.year);
    TwoDigits(dt.month);
    TwoDigits(dt.day);
    TwoDigits(dt.hour);
    TwoDigits(dt.minute);
    TwoDigits(dt.second);
  }

  lemma FourDigits(n: nat)
    requires n < 10000
    ensures 1000 * (n / 1000) + 100 * (n / 100 % 10) + 10 * (n / 10 % 10) + n % 10 == n
  {
    assert n == 10 * (n / 10) + n % 10;
    assert n / 10 == 10 * (n / 100) + n / 10 % 10;
    assert n / 100 == 10 * (n / 1000) + n / 100 % 10;
  }

  lemma HeadWellFormed(dt: DateTime)
    requires Valid(dt)
    ensures WellFormedHead(FormatHead(dt))
  {
    HeadChars(dt);
    var h := FormatHead(dt);
    assert IsDigit(h[0]) && IsDigit(h[1]) && IsDigit(h[2]) && IsDigit(h[3]);
  }

  lemma HeadDate(dt: DateTime)
    requires Valid(dt)
    ensures var h := FormatHead(dt);
            && IsDigit(h[0]) && IsDigit(h[1]) && IsDigit(h[2]) && IsDigit(h[3]) && Number4(h, 0) == dt.year
            && IsDigit(h[5]) && IsDigit(h[6]) && Number2(h, 5) == dt.month
            && IsDigit(h[8]) && IsDigit(h[9]) && Number2(h, 8) == dt.day
  {
    HeadChars(dt);
    FourDigits(dt.year);
  }

  lemma HeadTime(dt: DateTime)
    requires Valid(dt)
    ensures var h := FormatHead(dt);
            && IsDigit(h[11]) && IsDigit(h[12]) && Number2(h, 11) == dt.hour
            && IsDigit(h[14]) && IsDigit(h[15]) && Number2(h, 14) == dt.minute
            && IsDigit(h[17]) && IsDigit(h[18]) && Number2(h, 17) == dt.second
  {
    HeadChars(dt);
  }

  /** The canonical head of a date-time is well formed and holds its six fields. */
  lemma HeadRoundTrip(dt: DateTime)
    requires Valid(dt)
    ensures WellFormedHead(FormatHead(dt))
    ensures var h := FormatHead(dt);
            && Number4(h, 0) == dt.year && Number2(h, 5) == dt.month && Number2(h, 8) == dt.day
            && Number2(h, 11) == dt.hour && Number2(h, 14) == dt.minute && Number2(h, 17) == dt.second
  {
    HeadWellFormed(dt);
    HeadDate(dt);
    HeadTime(dt);
  }

  /** The head and its fields depend on the first 19 characters only. */
  lemma HeadOfPrefix(s: string, h: string)
    requires |h| == 19 && |s| >= 19 && s[..19] == h && WellFormedHead(h)
    ensures WellFormedHead(s)
    ensures && Number4(s, 0) == Number4(h, 0) && Number2(s, 5) == Number2(h, 5) && Number2(s, 8) == Number2(h, 8)
            && Number2(s, 11) == Number2(h, 11) && Number2(s, 14) == Number2(h, 14) && Number2(s, 17) == Number2(h, 17)
  {
    assert forall i | 0 <= i < 19 :: s[i] == h[i];
  }

  /** What the canonical formatter writes parses back to the same date-time. */
  lemma ParseFormat(dt: DateTime)
    requires Valid(dt)
    ensures Parse(Format(dt)) == Some(dt)
  {
    var head, frac, off := FormatHead(dt), FormatFraction(dt.nanos), FormatOffset(dt.offset);
    var s := Format(dt);
    assert s == head + (frac + off);
    assert s[..19] == head;
    assert s[19..] == frac + off;
    HeadRoundTrip(dt);
    HeadOfPrefix(s, head);
    FractionRoundTrip(dt.nanos, off);
    OffsetRoundTrip(dt.offset);
  }

  // ---------------------------------------------------------------- literal text

  /** A date-time written `YYYY-MM-DDThh:mm:ssZ` parses to its fields. */
  lemma ParseWholeSeconds(s: string)
    requires |s| == 20 && WellFormedHead(s) && s[19] == 'Z'
    requires Valid(DateTime(Number4(s, 0), Number2(s, 5), Number2(s, 8), Number2(s, 11), Number2(s, 14), Number2(s, 17), 0, 0))
    ensures Parse(s) == Some(DateTime(Number4(s, 0), Number2(s, 5), Number2(s, 8), Number2(s, 11), Number2(s, 14), Number2(s, 17), 0, 0))
  {
    assert s[19..] == "Z";
  }

  /** A date-time written `YYYY-MM-DDThh:mm:ss.dZ` parses to its fields, d tenths of a second. */
  lemma ParseTenths(s: string)
    requires |s| == 22 && WellFormedHead(s) && s[19] == '.' && IsDigit(s[20]) && s[21] == 'Z'
    requires Valid(DateTime(Number4(s, 0), Number2(s, 5), Number2(s, 8), Number2(s, 11), Number2(s, 14), Number2(s, 17),
                            DigitValue(s[20]) * 100_000_000, 0))
    ensures Parse(s) == Some(DateTime(Number4(s, 0), Number2(s, 5), Number2(s, 8), Number2(s, 11), Number2(s, 14), Number2(s, 17),
                                      DigitValue(s[20]) * 100_000_000, 0))
  {
    var rest := s[19..];
    assert rest[1..] == [s[20], 'Z'];
    assert LeadingDigits(rest[1..]) == 1;
    assert rest[1..2] == [s[20]];
    assert Number([s[20]]) == DigitValue(s[20]) by {
      assert [s[20]][..0] == [];
    }
    assert Pow10(8) == 100_000_000;
    assert rest[2..] == "Z";
  }
}
