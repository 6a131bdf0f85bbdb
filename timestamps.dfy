/** The last-execution timestamps a routine keeps in its store: Python's
    `datetime.isoformat(" ")` as the writer and
    `datetime.strptime(value, "%Y-%m-%d %H:%M:%S.%f")` as the reader, with the
    instant arithmetic that `now - last` needs. */
module Timestamps {
  import opened Text

  /** A naive `datetime.datetime` value (no time zone). */
  datatype DateTime = DateTime(year: nat, month: nat, day: nat,
                               hour: nat, minute: nat, second: nat, microsecond: nat)

  predicate IsLeap(year: int) {
    year % 4 == 0 && (year % 100 != 0 || year % 400 == 0)
  }

  function DaysInMonth(year: int, month: int): nat {
    if month == 2 then (if IsLeap(year) then 29 else 28)
    else if month == 4 || month == 6 || month == 9 || month == 11 then 30
    else 31
  }

  /** The field ranges the `datetime` constructor enforces. */
  predicate ValidDateTime(dt: DateTime) {
    && 1 <= dt.year <= 9999
    && 1 <= dt.month <= 12
    && 1 <= dt.day <= DaysInMonth(dt.year, dt.month)
    && dt.hour <= 23 && dt.minute <= 59 && dt.second <= 59
    && dt.microsecond <= 999999
  }

  // ---------------------------------------------------------------------
  // Instants

  /** Days before 1 January of `year` in the proleptic Gregorian calendar. */
  function DaysBeforeYear(year: int): int {
    var y := year - 1;
    y * 365 + y / 4 - y / 100 + y / 400
  }

  /** Days of `year` before the first day of `month`. */
  function DaysBeforeMonth(year: int, month: nat): nat
    decreases month
  {
    if month <= 1 then 0 else DaysBeforeMonth(year, month - 1) + DaysInMonth(year, month - 1)
  }

  /** `date.toordinal()`: 1 January of year 1 is day 1. */
  function Ordinal(dt: DateTime): int {
    DaysBeforeYear(dt.year) + DaysBeforeMonth(dt.year, dt.month) + dt.day
  }

  /** The instant of `dt` in microseconds; `a - b` of two datetimes is the
      timedelta `Micros(a) - Micros(b)` microseconds long. */
  function Micros(dt: DateTime): (r: int)
    ensures ValidDateTime(dt) ==> Ordinal(dt) * 86400000000 <= r < (Ordinal(dt) + 1) * 86400000000
    ensures ValidDateTime(dt) ==> r % 1000000 == dt.microsecond
  {
    (((Ordinal(dt) * 24 + dt.hour) * 60 + dt.minute) * 60 + dt.second) * 1000000 + dt.microsecond
  }

  // ---------------------------------------------------------------------
  // Decimal digits

  function Pow10(n: nat): (p: nat)
    ensures p >= 1
  {
    if n == 0 then 1 else 10 * Pow10(n - 1)
  }

  function DigitChar(d: nat): (c: char)
    requires d < 10
    ensures IsDigit(c)
  {
    ('0' as int + d) as char
  }

  predicate AllDigits(s: string) {
    forall i :: 0 <= i < |s| ==> IsDigit(s[i])
  }

  /** The value `int(s)` of a string of decimal digits. */
  function Decimal(s: string): (n: nat)
    requires AllDigits(s)
    ensures n < Pow10(|s|)
    decreases |s|
  {
    if s == [] then 0 else Decimal(s[..|s| - 1]) * 10 + (s[|s| - 1] as int - '0' as int)
  }

  /** `"%0*d" % (width, n)` for `n < 10^width`: exactly `width` digits. */
  function Pad(n: nat, width: nat): (r: string)
    ensures |r| == width && AllDigits(r)
  {
    if width == 0 then [] else Pad(n / 10, width - 1) + [DigitChar(n % 10)]
  }

  lemma {:induction false} DecimalOfPad(n: nat, width: nat)
    requires n < Pow10(width)
    ensures Decimal(Pad(n, width)) == n
  {
    if width > 0 {
      var p := Pad(n, width);
      assert p[..width - 1] == Pad(n / 10, width - 1);
      DecimalOfPad(n / 10, width - 1);
    }
  }

  /** A run of digits followed by a non-digit is read up to the non-digit. */
  lemma DigitsThen(ds: string, c: char, rest: string)
    requires AllDigits(ds) && !IsDigit(c)
    ensures var s := ds + [c] + rest;
            && LeadingRun(s, IsDigit) == |ds|
            && s[..|ds|] == ds && s[|ds|] == c && s[|ds| + 1..] == rest
  {
    var s := ds + [c] + rest;
    assert s[..|ds|] == ds;
    assert s[|ds| + 1..] == rest;
    LeadingRunIs(s, IsDigit, |ds|);
  }

  // ---------------------------------------------------------------------
  // Writer

  /** `dt.isoformat(" ")`: `YYYY-MM-DD HH:MM:SS`, followed by `.ffffff` only
      when the microsecond is not zero. */
  function IsoFormat(dt: DateTime): (r: string)
    requires ValidDateTime(dt)
    ensures |r| == if dt.microsecond != 0 then 26 else 19
  {
    DatePart(dt) + " " + TimePart(dt)
  }

  /** `"%04d-%02d-%02d"` of the date fields. */
  function DatePart(dt: DateTime): (r: string)
    ensures |r| == 10
  {
    Pad(dt.year, 4) + "-" + Pad(dt.month, 2) + "-" + Pad(dt.day, 2)
  }

  /** The time as `isoformat` writes it with its default precision: seconds,
      and microseconds only when there are any. */
  function TimePart(dt: DateTime): (r: string)
    ensures |r| == if dt.microsecond != 0 then 15 else 8
  {
    Pad(dt.hour, 2) + ":" + Pad(dt.minute, 2) + ":" + Pad(dt.second, 2)
    + (if dt.microsecond != 0 then "." + Pad(dt.microsecond, 6) else "")
  }

  // ---------------------------------------------------------------------
  // Reader

  /** One of `%m`, `%H`, `%M`, `%S` followed by the literal `sep`: one or two
      digits whose value lies in `lo..hi`. Yields the value and what follows `sep`. */
  function Field(s: string, lo: nat, hi: nat, sep: char): (r: Option<(nat, string)>)
    ensures r.Some? ==> lo <= r.value.0 <= hi && |r.value.1| < |s|
  {
    var n := LeadingRun(s, IsDigit);
    if 1 <= n <= 2 && n < |s| && s[n] == sep && lo <= Decimal(s[..n]) <= hi
    then Some((Decimal(s[..n]), s[n + 1..]))
    else None
  }

  /** `%d` followed by the run of whitespace (`\s+`) that the space of the
      pattern stands for: `01`..`31`, `1`..`9`, or a space and `1`..`9`. */
  function DayField(s: string): (r: Option<(nat, string)>)
    ensures r.Some? ==> 1 <= r.value.0 <= 31 && |r.value.1| < |s|
  {
    var n := LeadingRun(s, IsDigit);
    var day: Option<(nat, string)> :=
      if |s| >= 2 && s[0] == ' ' && '1' <= s[1] <= '9' then Some((Decimal(s[1..2]), s[2..]))
      else if 1 <= n <= 2 && 1 <= Decimal(s[..n]) <= 31 then Some((Decimal(s[..n]), s[n..]))
      else None;
    match day
    case None => None
    case Some((d, rest)) =>
      var w := LeadingRun(rest, IsSpace);
      if w >= 1 then Some((d, rest[w..])) else None
  }

  /** `%f` at the end of the input: one to six digits and nothing after them,
      scaled to microseconds as if padded on the right with zeros. */
  function Fraction(s: string): (r: Option<nat>)
    ensures r.Some? ==> r.value <= 999999
  {
    var n := LeadingRun(s, IsDigit);
    if 1 <= n <= 6 && n == |s| then
      assert Decimal(s) < Pow10(n);
      PowMono(n, 6);
      Some(Decimal(s) * Pow10(6 - n))
    else None
  }

  lemma {:induction false} PowMono(n: nat, m: nat)
    requires n <= m
    ensures Pow10(n) * Pow10(m - n) == Pow10(m)
    decreases m
  {
    if n < m {
      PowMono(n, m - 1);
      assert Pow10(m - n) == 10 * Pow10(m - 1 - n);
    }
  }

  /** `%Y-%m-%d` and the whitespace after it: the date fields and what follows. */
  function ReadDate(s: string): (r: Option<(nat, nat, nat, string)>)
    ensures r.Some? ==> 1 <= r.value.1 <= 12 && 1 <= r.value.2 <= 31
  {
    if !(|s| >= 5 && LeadingRun(s, IsDigit) == 4 && s[4] == '-') then None
    else
      match Field(s[5..], 1, 12, '-')
      case None => None
      case Some((month, s1)) =>
        match DayField(s1)
        case None => None
        case Some((day, s2)) => Some((Decimal(s[..4]), month, day, s2))
  }

  /** `%H:%M:%S.%f` up to the end of the input: hour, minute, second, microsecond. */
  function ReadClock(s: string): (r: Option<(nat, nat, nat, nat)>)
    ensures r.Some? ==> r.value.0 <= 23 && r.value.1 <= 59 && r.value.2 <= 61 && r.value.3 <= 999999
  {
    match Field(s, 0, 23, ':')
    case None => None
    case Some((hour, s1)) =>
      match Field(s1, 0, 59, ':')
      case None => None
      case Some((minute, s2)) =>
        match Field(s2, 0, 61, '.')
        case None => None
        case Some((second, s3)) =>
          match Fraction(s3)
          case None => None
          case Some(micro) => Some((hour, minute, second, micro))
  }

  /** `datetime.strptime(s, "%Y-%m-%d %H:%M:%S.%f")`, with `None` for every
      input on which it raises `ValueError` (no match, unconverted data left
      over, or a field the `datetime` constructor refuses). */
  function ParseStamp(s: string): (r: Option<DateTime>)
    ensures r.Some? ==> ValidDateTime(r.value)
  {
    match ReadDate(s)
    case None => None
    case Some((year, month, day, rest)) =>
      match ReadClock(rest)
      case None => None
      case Some((hour, minute, second, micro)) =>
        if year >= 1 && day <= DaysInMonth(year, month) && second <= 59
        then Some(DateTime(year, month, day, hour, minute, second, micro))
        else None
  }

  // ---------------------------------------------------------------------
  // The round trip

  lemma FieldOfPad(n: nat, lo: nat, hi: nat, sep: char, rest: string)
    requires lo <= n <= hi && n < 100 && !IsDigit(sep)
    ensures Field(Pad(n, 2) + [sep] + rest, lo, hi, sep) == Some((n, rest))
  {
    DigitsThen(Pad(n, 2), sep, rest);
    DecimalOfPad(n, 2);
  }

  lemma DayFieldOfPad(day: nat, rest: string)
    requires 1 <= day <= 31 && rest != [] && !IsSpace(rest[0])
    ensures DayField(Pad(day, 2) + " " + rest) == Some((day, rest))
  {
    var p := Pad(day, 2);
    var r2 := [' '] + rest;
    var s := p + [' '] + rest;
    assert p + " " + rest == s;
    DigitsThen(p, ' ', rest);
    DecimalOfPad(day, 2);
    assert s[0] == p[0] && IsDigit(p[0]);
    assert s[..2] == p && s[2..] == r2;
    LeadingRunIs(r2, IsSpace, 1);
    assert r2[1..] == rest;
  }

  lemma ReadDateOfFormat(dt: DateTime, rest: string)
    requires ValidDateTime(dt) && rest != [] && !IsSpace(rest[0])
    ensures ReadDate(DatePart(dt) + " " + rest) == Some((dt.year, dt.month, dt.day, rest))
  {
    var r1 := Pad(dt.day, 2) + " " + rest;
    var r0 := Pad(dt.month, 2) + "-" + r1;
    assert DatePart(dt) + " " + rest == Pad(dt.year, 4) + "-" + r0;
    DigitsThen(Pad(dt.year, 4), '-', r0);
    DecimalOfPad(dt.year, 4);
    FieldOfPad(dt.month, 1, 12, '-', r1);
    DayFieldOfPad(dt.day, rest);
  }

  lemma ReadClockOfFormat(dt: DateTime)
    requires ValidDateTime(dt) && dt.microsecond != 0
    ensures ReadClock(TimePart(dt)) == Some((dt.hour, dt.minute, dt.second, dt.microsecond))
  {
    var r3 := Pad(dt.microsecond, 6);
    var r2 := Pad(dt.second, 2) + "." + r3;
    var r1 := Pad(dt.minute, 2) + ":" + r2;
    assert TimePart(dt) == Pad(dt.hour, 2) + ":" + r1;
    FieldOfPad(dt.hour, 0, 23, ':', r1);
    FieldOfPad(dt.minute, 0, 59, ':', r2);
    FieldOfPad(dt.second, 0, 61, '.', r3);
    DecimalOfPad(dt.microsecond, 6);
    LeadingRunIs(r3, IsDigit, 6);
    assert Fraction(r3) == Some(dt.microsecond);
  }

  /** What `isoformat(" ")` writes with a non-zero microsecond, `strptime`
      reads back as the very same datetime. */
  lemma StampRoundTrip(dt: DateTime)
    requires ValidDateTime(dt) && dt.microsecond != 0
    ensures ParseStamp(IsoFormat(dt)) == Some(dt)
  {
    ReadDateOfFormat(dt, TimePart(dt));
    ReadClockOfFormat(dt);
  }

  /** At a whole second `isoformat(" ")` leaves out the fraction, and the
      `.%f` the reader insists on is missing: the stamp does not parse. */
  lemma WholeSecondStampFails(dt: DateTime)
    requires ValidDateTime(dt) && dt.microsecond == 0
    ensures ParseStamp(IsoFormat(dt)) == None
  {
    var sec := Pad(dt.second, 2);
    var r1 := Pad(dt.minute, 2) + ":" + sec;
    var t := TimePart(dt);
    assert t == Pad(dt.hour, 2) + ":" + r1;
    ReadDateOfFormat(dt, t);
    FieldOfPad(dt.hour, 0, 23, ':', r1);
    assert r1 == Pad(dt.minute, 2) + [':'] + sec;
    DigitsThen(Pad(dt.minute, 2), ':', sec);
    DecimalOfPad(dt.minute, 2);
    LeadingRunIs(sec, IsDigit, 2);
    assert Field(sec, 0, 61, '.') == None;
    assert ReadClock(t) == None;
  }
}
