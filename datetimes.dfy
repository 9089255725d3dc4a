/** Naive and offset-aware date-times as the weather clients use them:
    `datetime.strptime` with the two fixed formats of the providers, the
    chronological order, and seconds on the local wall clock. */
module DateTimes {
  import opened Errors

  /** A naive `datetime` (no time zone), to the second. */
  datatype DateTime = DateTime(year: int, month: int, day: int, hour: int, minute: int, second: int)

  /** An aware `datetime`: the wall-clock fields and the UTC offset in seconds. */
  datatype AwareDateTime = Aware(local: DateTime, offset: int)

  predicate IsLeapYear(y: int) {
    y % 4 == 0 && (y % 100 != 0 || y % 400 == 0)
  }

  function DaysInMonth(y: int, m: int): (n: int)
    requires 1 <= m <= 12
    ensures 28 <= n <= 31
    ensures n == 29 <==> m == 2 && IsLeapYear(y)
  {
    if m == 2 then (if IsLeapYear(y) then 29 else 28)
    else if m == 4 || m == 6 || m == 9 || m == 11 then 30
    else 31
  }

  /** The values Python's `datetime` accepts (years 1 to 9999). */
  predicate Valid(dt: DateTime) {
    && 1 <= dt.year <= 9999
    && 1 <= dt.month <= 12
    && 1 <= dt.day <= DaysInMonth(dt.year, dt.month)
    && 0 <= dt.hour < 24
    && 0 <= dt.minute < 60
    && 0 <= dt.second < 60
  }

  /** A `datetime` value, such as the one `datetime.now()` returns. */
  type ValidDateTime = dt: DateTime | Valid(dt) witness DateTime(1970, 1, 1, 0, 0, 0)

  /** The order of `datetime` values: field by field, year first. */
  predicate Before(a: DateTime, b: DateTime) {
    || a.year < b.year
    || (a.year == b.year && a.month < b.month)
    || (a.year == b.year && a.month == b.month && a.day < b.day)
    || (a.year == b.year && a.month == b.month && a.day == b.day && a.hour < b.hour)
    || (a.year == b.year && a.month == b.month && a.day == b.day && a.hour == b.hour && a.minute < b.minute)
    || (a.year == b.year && a.month == b.month && a.day == b.day && a.hour == b.hour && a.minute == b.minute
        && a.second < b.second)
  }

  /** The order of `.date()` values: year, month, day. */
  predicate DateBefore(a: DateTime, b: DateTime) {
    || a.year < b.year
    || (a.year == b.year && a.month < b.month)
    || (a.year == b.year && a.month == b.month && a.day < b.day)
  }

  lemma BeforeIsStrictTotal(a: DateTime, b: DateTime, c: DateTime)
    ensures !Before(a, a)
    ensures Before(a, b) && Before(b, c) ==> Before(a, c)
    ensures a != b ==> Before(a, b) || Before(b, a)
    ensures Before(a, b) ==> !Before(b, a)
  {
  }

  /** Days from 1970-01-01 to the given civil date of the proleptic
      Gregorian calendar (the era-based method; `/` is floor division for a
      positive divisor, as Python's `//` is). */
  function DaysFromCivil(y: int, m: int, d: int): int {
    var y' := if m <= 2 then y - 1 else y;
    var era := y' / 400;
    var yoe := y' - era * 400;
    var mp := if m > 2 then m - 3 else m + 9;
    var doy := (153 * mp + 2) / 5 + d - 1;
    var doe := yoe * 365 + yoe / 4 - yoe / 100 + doy;
    era * 146097 + doe - 719468
  }

  /** Seconds since 1970-01-01 00:00:00 on the same (local) wall clock. */
  function LocalSeconds(dt: DateTime): int {
    DaysFromCivil(dt.year, dt.month, dt.day) * 86400 + dt.hour * 3600 + dt.minute * 60 + dt.second
  }

  /** The UTC instant of an aware value; Python compares and hashes aware
      values by this instant alone. */
  function Instant(a: AwareDateTime): int {
    LocalSeconds(a.local) - a.offset
  }

  lemma EpochIsDayZero()
    ensures DaysFromCivil(1970, 1, 1) == 0
    ensures LocalSeconds(DateTime(1970, 1, 1, 0, 0, 0)) == 0
  {
  }

  /** Within a month, the next day is the next day number. */
  lemma DaysFromCivilNextDay(y: int, m: int, d: int)
    requires 1 <= m <= 12
    ensures DaysFromCivil(y, m, d + 1) == DaysFromCivil(y, m, d) + 1
  {
  }

  /** The last day of a year is followed by the first of the next. */
  lemma DaysFromCivilNewYear(y: int)
    ensures DaysFromCivil(y + 1, 1, 1) == DaysFromCivil(y, 12, 31) + 1
  {
  }

  // ---------------------------------------------------------------- parsing

  predicate IsDigit(c: char) {
    '0' <= c <= '9'
  }

  function DigitValue(c: char): (v: int)
    requires IsDigit(c)
    ensures 0 <= v < 10
  {
    c as int - '0' as int
  }

  function DigitChar(v: int): (c: char)
    requires 0 <= v < 10
    ensures IsDigit(c) && DigitValue(c) == v
  {
    ('0' as int + v) as char
  }

  /** `%02d` for 0..99. */
  function Pad2(n: int): (s: string)
    requires 0 <= n < 100
    ensures |s| == 2
  {
    [DigitChar(n / 10), DigitChar(n % 10)]
  }

  /** `%04d` for 0..9999, as `%Y` prints a year. */
  function Pad4(n: int): (s: string)
    requires 0 <= n < 10000
    ensures |s| == 4
  {
    [DigitChar(n / 1000), DigitChar(n / 100 % 10), DigitChar(n / 10 % 10), DigitChar(n % 10)]
  }

  function Value2(s: string, i: nat): int
    requires i + 2 <= |s| && IsDigit(s[i]) && IsDigit(s[i + 1])
  {
    DigitValue(s[i]) * 10 + DigitValue(s[i + 1])
  }

  function Value4(s: string, i: nat): int
    requires i + 4 <= |s| && IsDigit(s[i]) && IsDigit(s[i + 1]) && IsDigit(s[i + 2]) && IsDigit(s[i + 3])
  {
    DigitValue(s[i]) * 1000 + DigitValue(s[i + 1]) * 100 + DigitValue(s[i + 2]) * 10 + DigitValue(s[i + 3])
  }

  /** The shape `YYYY-MM-DD?HH:MM:SS` at the start of `s`, with `sep` between
      the date and the time. */
  predicate HasDateTimeShape(s: string, sep: char) {
    && |s| >= 19
    && s[4] == '-' && s[7] == '-' && s[10] == sep && s[13] == ':' && s[16] == ':'
    && IsDigit(s[0]) && IsDigit(s[1]) && IsDigit(s[2]) && IsDigit(s[3])
    && IsDigit(s[5]) && IsDigit(s[6]) && IsDigit(s[8]) && IsDigit(s[9])
    && IsDigit(s[11]) && IsDigit(s[12]) && IsDigit(s[14]) && IsDigit(s[15])
    && IsDigit(s[17]) && IsDigit(s[18])
  }

  function FieldsOf(s: string, sep: char): DateTime
    requires HasDateTimeShape(s, sep)
  {
    DateTime(Value4(s, 0), Value2(s, 5), Value2(s, 8), Value2(s, 11), Value2(s, 14), Value2(s, 17))
  }

  /** `datetime.strptime(s, "%Y-%m-%d %H:%M:%S")` on zero-padded input: any
      other text, or fields out of range (month 13, 30 February, second 60),
      raise `ValueError`. */
  function ParseNaive(s: string): (r: Result<DateTime>)
    ensures r.Ok? ==> Valid(r.value)
    ensures r.Err? ==> r.error == ValueError
  {
    if |s| == 19 && HasDateTimeShape(s, ' ') && Valid(FieldsOf(s, ' ')) then Ok(FieldsOf(s, ' '))
    else Err(ValueError)
  }

  /** `dt.strftime("%Y-%m-%d %H:%M:%S")`. */
  function FormatNaive(dt: DateTime): (s: string)
    requires Valid(dt)
    ensures |s| == 19
  {
    Pad4(dt.year) + "-" + Pad2(dt.month) + "-" + Pad2(dt.day) + " "
    + Pad2(dt.hour) + ":" + Pad2(dt.minute) + ":" + Pad2(dt.second)
  }

  lemma Value2Pad2(s: string, i: nat, n: int)
    requires 0 <= n < 100 && i + 2 <= |s| && s[i..i + 2] == Pad2(n)
    ensures IsDigit(s[i]) && IsDigit(s[i + 1]) && Value2(s, i) == n
  {
    assert s[i] == s[i..i + 2][0] && s[i + 1] == s[i..i + 2][1];
  }

  lemma Value4Pad4(s: string, i: nat, n: int)
    requires 0 <= n < 10000 && i + 4 <= |s| && s[i..i + 4] == Pad4(n)
    ensures IsDigit(s[i]) && IsDigit(s[i + 1]) && IsDigit(s[i + 2]) && IsDigit(s[i + 3])
    ensures Value4(s, i) == n
  {
    assert s[i] == s[i..i + 4][0] && s[i + 1] == s[i..i + 4][1];
    assert s[i + 2] == s[i..i + 4][2] && s[i + 3] == s[i..i + 4][3];
    DecimalDigits(n);
  }

  lemma DecimalDigits(n: int)
    requires 0 <= n < 10000
    ensures n / 1000 * 1000 + n / 100 % 10 * 100 + n / 10 % 10 * 10 + n % 10 == n
    ensures n / 1000 < 10
  {
    var q1, q2, q3 := n / 10, n / 100, n / 1000;
    assert n == q1 * 10 + n % 10;
    assert q2 == q1 / 10 && q1 == q2 * 10 + q1 % 10;
    assert q3 == q2 / 10 && q2 == q3 * 10 + q2 % 10;
  }

  /** The fields laid out by `FormatNaive` are read back by the parser. */
  lemma {:induction false} FieldsOfLayout(s: string, dt: DateTime, sep: char)
    requires Valid(dt) && |s| >= 19
    requires s[..4] == Pad4(dt.year) && s[4] == '-' && s[5..7] == Pad2(dt.month) && s[7] == '-'
    requires s[8..10] == Pad2(dt.day) && s[10] == sep && s[11..13] == Pad2(dt.hour) && s[13] == ':'
    requires s[14..16] == Pad2(dt.minute) && s[16] == ':' && s[17..19] == Pad2(dt.second)
    ensures HasDateTimeShape(s, sep) && FieldsOf(s, sep) == dt
  {
    Value4Pad4(s, 0, dt.year);
    Value2Pad2(s, 5, dt.month);
    Value2Pad2(s, 8, dt.day);
    Value2Pad2(s, 11, dt.hour);
    Value2Pad2(s, 14, dt.minute);
    Value2Pad2(s, 17, dt.second);
  }

  /** Formatting then parsing gives the value back. */
  lemma {:induction false} ParseFormatNaive(dt: DateTime)
    requires Valid(dt)
    ensures ParseNaive(FormatNaive(dt)) == Ok(dt)
  {
    var s := FormatNaive(dt);
    assert s[..4] == Pad4(dt.year);
    assert s[5..7] == Pad2(dt.month) && s[8..10] == Pad2(dt.day);
    assert s[11..13] == Pad2(dt.hour) && s[14..16] == Pad2(dt.minute) && s[17..19] == Pad2(dt.second);
    FieldsOfLayout(s, dt, ' ');
  }

  lemma Pad2Value2(s: string, i: nat)
    requires i + 2 <= |s| && IsDigit(s[i]) && IsDigit(s[i + 1])
    ensures Pad2(Value2(s, i)) == s[i..i + 2]
  {
  }

  lemma Pad4Value4(s: string, i: nat)
    requires i + 4 <= |s| && IsDigit(s[i]) && IsDigit(s[i + 1]) && IsDigit(s[i + 2]) && IsDigit(s[i + 3])
    ensures Pad4(Value4(s, i)) == s[i..i + 4]
  {
    var a, b, c, d := DigitValue(s[i]), DigitValue(s[i + 1]), DigitValue(s[i + 2]), DigitValue(s[i + 3]);
    var n := Value4(s, i);
    assert n == a * 1000 + b * 100 + c * 10 + d;
    assert n % 10 == d && n / 10 == a * 100 + b * 10 + c;
    assert n / 10 % 10 == c && n / 100 == a * 10 + b;
    assert n / 100 % 10 == b && n / 1000 == a;
  }

  /** Every text the parser accepts is the canonical spelling of its value:
      the parser and the formatter are inverse bijections. */
  lemma {:induction false} FormatParseNaive(s: string)
    requires ParseNaive(s).Ok?
    ensures FormatNaive(ParseNaive(s).value) == s
  {
    var dt := ParseNaive(s).value;
    Pad4Value4(s, 0);
    Pad2Value2(s, 5);
    Pad2Value2(s, 8);
    Pad2Value2(s, 11);
    Pad2Value2(s, 14);
    Pad2Value2(s, 17);
    var t := FormatNaive(dt);
    assert t == s[..4] + [s[4]] + s[5..7] + [s[7]] + s[8..10] + [s[10]] + s[11..13] + [s[13]]
      + s[14..16] + [s[16]] + s[17..19];
    assert s == s[..4] + [s[4]] + s[5..7] + [s[7]] + s[8..10] + [s[10]] + s[11..13] + [s[13]]
      + s[14..16] + [s[16]] + s[17..19];
  }

  /** The UTC offset `%z` reads after the seconds: `Z`, `+HHMM` or `+HH:MM`
      (with `-` for west of UTC). An offset of 24 hours or more raises
      `ValueError`, as `datetime.timezone` does. */
  function ParseOffset(z: string): (r: Result<int>)
    ensures r.Ok? ==> -86400 < r.value < 86400
    ensures r.Err? ==> r.error == ValueError
  {
    if z == "Z" then Ok(0)
    else if |z| >= 5 && (z[0] == '+' || z[0] == '-') && IsDigit(z[1]) && IsDigit(z[2]) then
      var mm := if |z| == 5 then 3 else 4;
      if (|z| == 5 || (|z| == 6 && z[3] == ':')) && IsDigit(z[mm]) && IsDigit(z[mm + 1])
         && Value2(z, mm) < 60 && Value2(z, 1) < 24
      then
        var secs := Value2(z, 1) * 3600 + Value2(z, mm) * 60;
        Ok(if z[0] == '-' then -secs else secs)
      else Err(ValueError)
    else Err(ValueError)
  }

  /** `datetime.strptime(s, "%Y-%m-%dT%H:%M:%S%z")`, the format of the hourly
      forecast's `DateTime` field. */
  function ParseAware(s: string): (r: Result<AwareDateTime>)
    ensures r.Ok? ==> Valid(r.value.local) && -86400 < r.value.offset < 86400
    ensures r.Err? ==> r.error == ValueError
  {
    if HasDateTimeShape(s, 'T') && Valid(FieldsOf(s, 'T')) then
      match ParseOffset(s[19..])
      case Ok(off) => Ok(Aware(FieldsOf(s, 'T'), off))
      case Err(e) => Err(e)
    else Err(ValueError)
  }

  /** The `+HH:MM` spelling of an offset that is a whole number of minutes. */
  function FormatOffset(off: int): (z: string)
    requires -86400 < off < 86400 && off % 60 == 0
    ensures |z| == 6
  {
    var a := if off < 0 then -off else off;
    [if off < 0 then '-' else '+'] + Pad2(a / 3600) + ":" + Pad2(a % 3600 / 60)
  }

  /** `dt.isoformat()` for an aware value with whole-minute offset. */
  function FormatAware(a: AwareDateTime): (s: string)
    requires Valid(a.local) && -86400 < a.offset < 86400 && a.offset % 60 == 0
    ensures |s| == 25
  {
    var dt := a.local;
    Pad4(dt.year) + "-" + Pad2(dt.month) + "-" + Pad2(dt.day) + "T"
    + Pad2(dt.hour) + ":" + Pad2(dt.minute) + ":" + Pad2(dt.second) + FormatOffset(a.offset)
  }

  lemma {:induction false} ParseFormatOffset(off: int)
    requires -86400 < off < 86400 && off % 60 == 0
    ensures ParseOffset(FormatOffset(off)) == Ok(off)
  {
    var z := FormatOffset(off);
    var a := if off < 0 then -off else off;
    assert z[1..3] == Pad2(a / 3600) && z[4..6] == Pad2(a % 3600 / 60);
    Value2Pad2(z, 1, a / 3600);
    Value2Pad2(z, 4, a % 3600 / 60);
    assert a == a / 3600 * 3600 + a % 3600 / 60 * 60;
  }

  /** Formatting an aware value then parsing it gives the value back. */
  lemma {:induction false} ParseFormatAware(a: AwareDateTime)
    requires Valid(a.local) && -86400 < a.offset < 86400 && a.offset % 60 == 0
    ensures ParseAware(FormatAware(a)) == Ok(a)
  {
    var s := FormatAware(a);
    var dt := a.local;
    assert s[..4] == Pad4(dt.year);
    assert s[5..7] == Pad2(dt.month) && s[8..10] == Pad2(dt.day);
    assert s[11..13] == Pad2(dt.hour) && s[14..16] == Pad2(dt.minute) && s[17..19] == Pad2(dt.second);
    FieldsOfLayout(s, dt, 'T');
    assert s[19..] == FormatOffset(a.offset);
    ParseFormatOffset(a.offset);
  }
}
