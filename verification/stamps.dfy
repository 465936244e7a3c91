/** Time stamps in the form of section 5.6 of RFC 3339, as the log writes and
    reads them. */
module Stamps {
  import opened Options
  import opened Text

  // A wall clock reading with its zone offset in minutes east of UTC.
  datatype Moment = Moment(year: nat, month: nat, day: nat, hour: nat, minute: nat, second: nat, offset: int)

  predicate IsLeap(year: nat) {
    year % 4 == 0 && (year % 100 != 0 || year % 400 == 0)
  }

  function DaysIn(month: nat, year: nat): nat {
    if month == 2 then (if IsLeap(year) then 29 else 28)
    else if month in {4, 6, 9, 11} then 30 else 31
  }

  predicate IsMoment(m: Moment) {
    && m.year <= 9999 && 1 <= m.month <= 12 && 1 <= m.day <= DaysIn(m.month, m.year)
    && m.hour <= 23 && m.minute <= 59 && m.second <= 59 && -1439 <= m.offset <= 1439
  }

  // ---- numbers ----

  predicate IsDigit(c: char) {
    '0' <= c <= '9'
  }

  function DigitChar(d: nat): (c: char)
    requires d < 10
    ensures IsDigit(c) && c as int - '0' as int == d
  {
    "0123456789"[d]
  }

  function Pad(n: nat, width: nat): (s: string)
    ensures |s| == width && forall k :: 0 <= k < |s| ==> IsDigit(s[k])
  {
    if width == 0 then "" else Pad(n / 10, width - 1) + [DigitChar(n % 10)]
  }

  function Number(s: string): Option<nat> {
    if s == "" then Some(0)
    else
      var c, before := s[|s| - 1], Number(s[..|s| - 1]);
      if IsDigit(c) && before.Some? then Some(10 * before.value + (c as int - '0' as int)) else None
  }

  function Power(width: nat): nat {
    if width == 0 then 1 else 10 * Power(width - 1)
  }

  lemma {:induction false} NumberOfPad(n: nat, width: nat)
    requires n < Power(width)
    ensures Number(Pad(n, width)) == Some(n)
  {
    if width > 0 {
      NumberOfPad(n / 10, width - 1);
      var s := Pad(n / 10, width - 1);
      assert (s + [DigitChar(n % 10)])[..|s|] == s;
    }
  }

  lemma {:induction false} TwoDigits(n: nat)
    requires n < 100
    ensures Number(Pad(n, 2)) == Some(n)
  {
    assert Power(1) == 10 && Power(2) == 100;
    NumberOfPad(n, 2);
  }

  lemma {:induction false} FourDigits(n: nat)
    requires n < 10000
    ensures Number(Pad(n, 4)) == Some(n)
  {
    assert Power(2) == 100;
    assert Power(3) == 1000;
    assert Power(4) == 10000;
    NumberOfPad(n, 4);
  }

  // ---- writing ----

  function Clock(m: Moment): (s: string)
    ensures |s| == 8
  {
    Pad(m.hour, 2) + ":" + Pad(m.minute, 2) + ":" + Pad(m.second, 2)
  }

  function Date(m: Moment): (s: string)
    ensures |s| == 10
  {
    Pad(m.year, 4) + "-" + Pad(m.month, 2) + "-" + Pad(m.day, 2)
  }

  function Zone(offset: int): string {
    if offset == 0 then "Z"
    else
      var size := if offset < 0 then -offset else offset;
      (if offset < 0 then "-" else "+") + Pad(size / 60, 2) + ":" + Pad(size % 60, 2)
  }

  function Stamp(m: Moment): string {
    Date(m) + "T" + Clock(m) + Zone(m.offset)
  }

  // ---- reading ----

  function SkipDigits(s: string): string {
    if s != "" && IsDigit(s[0]) then SkipDigits(s[1..]) else s
  }

  function SkipFraction(s: string): string {
    if |s| >= 2 && s[0] == '.' && IsDigit(s[1]) then SkipDigits(s[1..]) else s
  }

  function ReadZone(s: string): Option<int> {
    if s == "Z" then Some(0)
    else if |s| == 6 && s[0] in {'+', '-'} && s[3] == ':' then
      match (Number(s[1..3]), Number(s[4..6]))
      case (Some(h), Some(m)) =>
        if h <= 23 && m <= 59 then Some(if s[0] == '-' then -(60 * h + m) else 60 * h + m) else None
      case (_, _) => None
    else None
  }

  function ReadDate(s: string): Option<(nat, nat, nat)>
    requires |s| == 10
  {
    if s[4] != '-' || s[7] != '-' then None
    else
      match (Number(s[..4]), Number(s[5..7]), Number(s[8..10]))
      case (Some(y), Some(m), Some(d)) => Some((y, m, d))
      case (_, _, _) => None
  }

  function ReadClock(s: string): Option<(nat, nat, nat)>
    requires |s| == 8
  {
    if s[2] != ':' || s[5] != ':' then None
    else
      match (Number(s[..2]), Number(s[3..5]), Number(s[6..8]))
      case (Some(h), Some(m), Some(sec)) => Some((h, m, sec))
      case (_, _, _) => None
  }

  function Read(s: string): (r: Option<Moment>)
    ensures r.Some? ==> IsMoment(r.value)
  {
    if |s| < 20 || s[10] != 'T' then None
    else
      match (ReadDate(s[..10]), ReadClock(s[11..19]), ReadZone(SkipFraction(s[19..])))
      case (Some(date), Some(clock), Some(zone)) =>
        var m := Moment(date.0, date.1, date.2, clock.0, clock.1, clock.2, zone);
        if IsMoment(m) then Some(m) else None
      case (_, _, _) => None
  }

  // ---- reading undoes writing ----

  lemma {:induction false} ReadDateOfDate(m: Moment)
    requires IsMoment(m)
    ensures ReadDate(Date(m)) == Some((m.year, m.month, m.day))
  {
    var s := Date(m);
    assert s[..4] == Pad(m.year, 4) && s[5..7] == Pad(m.month, 2) && s[8..10] == Pad(m.day, 2);
    FourDigits(m.year);
    TwoDigits(m.month);
    TwoDigits(m.day);
  }

  lemma {:induction false} ReadClockOfClock(m: Moment)
    requires IsMoment(m)
    ensures ReadClock(Clock(m)) == Some((m.hour, m.minute, m.second))
  {
    var s := Clock(m);
    assert s[..2] == Pad(m.hour, 2) && s[3..5] == Pad(m.minute, 2) && s[6..8] == Pad(m.second, 2);
    TwoDigits(m.hour);
    TwoDigits(m.minute);
    TwoDigits(m.second);
  }

  lemma {:induction false} ReadSignedZone(sign: char, a: string, b: string, h: nat, m: nat)
    requires sign in {'+', '-'} && |a| == 2 && |b| == 2 && h <= 23 && m <= 59
    requires Number(a) == Some(h) && Number(b) == Some(m)
    ensures ReadZone([sign] + a + ":" + b) == Some(if sign == '-' then -(60 * h + m) else 60 * h + m)
  {
    var s := [sign] + a + ":" + b;
    assert s[1..3] == a && s[4..6] == b;
  }

  lemma {:induction false} ReadZoneOfZone(offset: int)
    requires -1439 <= offset <= 1439
    ensures Zone(offset) != "" && Zone(offset)[0] != '.' && ReadZone(Zone(offset)) == Some(offset)
  {
    if offset != 0 {
      var size := if offset < 0 then -offset else offset;
      var h, m := size / 60, size % 60;
      assert size == 60 * h + m;
      TwoDigits(h);
      TwoDigits(m);
      ReadSignedZone(if offset < 0 then '-' else '+', Pad(h, 2), Pad(m, 2), h, m);
    }
  }

  lemma {:induction false} ReadOfStamp(m: Moment)
    requires IsMoment(m)
    ensures Read(Stamp(m)) == Some(m)
  {
    var s := Stamp(m);
    ReadDateOfDate(m);
    ReadClockOfClock(m);
    ReadZoneOfZone(m.offset);
    assert s[..10] == Date(m) && s[11..19] == Clock(m) && s[19..] == Zone(m.offset);
  }

  lemma {:induction false} StampHasNoBracket(m: Moment)
    ensures ']' !in Stamp(m) && '\n' !in Stamp(m) && |Stamp(m)| >= 19
  {
  }

  // Fractions of a second, of any length, are read over.
  lemma {:induction false} DigitsAreSkipped(digits: string, rest: string)
    requires forall k :: 0 <= k < |digits| ==> IsDigit(digits[k])
    requires rest != "" ==> !IsDigit(rest[0])
    ensures SkipDigits(digits + rest) == rest
  {
    if digits == "" {
      assert digits + rest == rest;
    } else {
      assert (digits + rest)[1..] == digits[1..] + rest;
      DigitsAreSkipped(digits[1..], rest);
    }
  }

  lemma {:induction false} ReadOfParts(s: string, m: Moment, rest: string)
    requires IsMoment(m) && s == Date(m) + "T" + Clock(m) + rest && rest != ""
    requires ReadZone(SkipFraction(rest)) == Some(m.offset)
    ensures Read(s) == Some(m)
  {
    ReadDateOfDate(m);
    ReadClockOfClock(m);
    assert s[..10] == Date(m) && s[11..19] == Clock(m) && s[19..] == rest;
  }

  lemma {:induction false} ReadOfFraction(m: Moment, digits: string)
    requires IsMoment(m) && digits != "" && forall k :: 0 <= k < |digits| ==> IsDigit(digits[k])
    ensures Read(Date(m) + "T" + Clock(m) + ("." + digits + Zone(m.offset))) == Some(m)
  {
    var zone := Zone(m.offset);
    var rest := "." + digits + zone;
    ReadZoneOfZone(m.offset);
    ZoneIsNoDigit(m.offset);
    assert rest[1..] == digits + zone && rest[1] == digits[0];
    DigitsAreSkipped(digits, zone);
    ReadOfParts(Date(m) + "T" + Clock(m) + rest, m, rest);
  }

  lemma {:induction false} ZoneIsNoDigit(offset: int)
    ensures Zone(offset) != "" && !IsDigit(Zone(offset)[0])
  {
  }

  // ---- the form, digit by digit ----

  lemma {:induction false} PadOfTwo(n: nat)
    requires n < 100
    ensures Pad(n, 2) == [DigitChar(n / 10), DigitChar(n % 10)]
  {
    assert Pad(n, 2) == Pad(n / 10, 1) + [DigitChar(n % 10)];
    assert Pad(n / 10, 1) == Pad(n / 10 / 10, 0) + [DigitChar(n / 10 % 10)];
  }

  lemma {:induction false} PadOfFour(n: nat)
    requires n < 10000
    ensures Pad(n, 4) == [DigitChar(n / 1000), DigitChar(n / 100 % 10), DigitChar(n / 10 % 10), DigitChar(n % 10)]
  {
    assert Pad(n, 4) == Pad(n / 10, 3) + [DigitChar(n % 10)];
    assert Pad(n / 10, 3) == Pad(n / 10 / 10, 2) + [DigitChar(n / 10 % 10)];
    assert n / 10 / 10 == n / 100 && n / 100 / 10 == n / 1000;
    PadOfTwo(n / 100);
  }

  // Year, month and day.
  lemma {:induction false} DateDigits(m: Moment)
    requires IsMoment(m)
    ensures Date(m) == [
      DigitChar(m.year / 1000), DigitChar(m.year / 100 % 10), DigitChar(m.year / 10 % 10), DigitChar(m.year % 10), '-',
      DigitChar(m.month / 10), DigitChar(m.month % 10), '-', DigitChar(m.day / 10), DigitChar(m.day % 10)]
  {
    PadOfFour(m.year);
    PadOfTwo(m.month);
    PadOfTwo(m.day);
  }

  // Hour, minute and second.
  lemma {:induction false} ClockDigits(m: Moment)
    requires IsMoment(m)
    ensures Clock(m) == [
      DigitChar(m.hour / 10), DigitChar(m.hour % 10), ':', DigitChar(m.minute / 10), DigitChar(m.minute % 10), ':',
      DigitChar(m.second / 10), DigitChar(m.second % 10)]
  {
    PadOfTwo(m.hour);
    PadOfTwo(m.minute);
    PadOfTwo(m.second);
  }

  // The sign, hours and minutes of the offset, or one letter for none.
  lemma {:induction false} ZoneDigits(offset: int)
    requires -1439 <= offset <= 1439
    ensures offset == 0 ==> Zone(offset) == "Z"
    ensures offset != 0 ==>
      var size := if offset < 0 then -offset else offset;
      Zone(offset) == [
        if offset < 0 then '-' else '+', DigitChar(size / 60 / 10), DigitChar(size / 60 % 10), ':',
        DigitChar(size % 60 / 10), DigitChar(size % 60 % 10)]
  {
    var size := if offset < 0 then -offset else offset;
    PadOfTwo(size / 60);
    PadOfTwo(size % 60);
  }
}
