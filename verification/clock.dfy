/** java.time.LocalDateTime as its fields, with the total order used by isBefore/isAfter. */
module Clock {
  import opened JavaString

  datatype LocalDateTime = LocalDateTime(
    year: int, month: int, day: int, hour: int, minute: int, second: int, nano: int)

  /** Each field within its range; the day is bounded by 31, not by its month's length. */
  predicate Valid(t: LocalDateTime) {
    1 <= t.month <= 12 && 1 <= t.day <= 31 && 0 <= t.hour < 24 && 0 <= t.minute < 60
    && 0 <= t.second < 60 && 0 <= t.nano < 1000000000
  }

  /** Days since 1970-01-01 of a proleptic Gregorian date (civil calendar arithmetic). */
  function EpochDay(year: int, month: int, day: int): int {
    var y := if month <= 2 then year - 1 else year;
    var era := y / 400;
    var yoe := y - era * 400;
    var mp := (month + 9) % 12;
    var doy := (153 * mp + 2) / 5 + day - 1;
    var doe := yoe * 365 + yoe / 4 - yoe / 100 + doy;
    era * 146097 + doe - 719468
  }

  const NanosPerMinute: int := 60 * 1000000000

  /** Position on the time line in nanoseconds; isBefore/isAfter/isEqual compare these. */
  function EpochNanos(t: LocalDateTime): int {
    ((EpochDay(t.year, t.month, t.day) * 24 + t.hour) * 60 + t.minute) * NanosPerMinute
    + t.second * 1000000000 + t.nano
  }

  /** toLocalTime as nanoseconds since midnight; LocalTime's isBefore/isAfter compare these. */
  function NanoOfDay(t: LocalDateTime): int {
    ((t.hour * 60 + t.minute) * 60 + t.second) * 1000000000 + t.nano
  }

  /** `t.isAfter(cutoff) || t.isEqual(cutoff)` where cutoff = now.minusMinutes(minutes). */
  predicate NotBeforeMinutesAgo(t: LocalDateTime, now: LocalDateTime, minutes: nat) {
    EpochNanos(t) >= EpochNanos(now) - minutes * NanosPerMinute
  }

  /** The year of era "y" prints: year 0 is 1 BC, year -1 is 2 BC, and so on. */
  function YearOfEra(year: int): (r: int)
    ensures r >= 1
    ensures year >= 1 ==> r == year
    ensures year < 1 ==> r + year == 1
  {
    if year >= 1 then year else 1 - year
  }

  /** DateTimeFormatter "yyMMdd": the last two digits of the year of era, the month and
      the day, two digits each. */
  function FormatYyMmDd(t: LocalDateTime): (r: string)
    requires Valid(t)
    ensures |r| == 6 && AllDigits(r)
    ensures DigitsValue(r[..2]) == YearOfEra(t.year) % 100
    ensures DigitsValue(r[2..4]) == t.month && DigitsValue(r[4..]) == t.day
  {
    var yy, mm, dd := TwoDigits(YearOfEra(t.year) % 100), TwoDigits(t.month), TwoDigits(t.day);
    assert (yy + mm + dd)[..2] == yy && (yy + mm + dd)[2..4] == mm && (yy + mm + dd)[4..] == dd;
    yy + mm + dd
  }

  /** A number below 100 as two decimal digits, zero-padded. */
  function TwoDigits(n: nat): (r: string)
    requires n < 100
    ensures |r| == 2 && AllDigits(r) && DigitsValue(r) == n
  {
    var r := [DigitChar(n / 10), DigitChar(n % 10)];
    assert r[1..] == [DigitChar(n % 10)] && r[1..][1..] == [];
    assert DigitsValue(r) == 10 * (n / 10) + (n % 10) by {
      assert DigitValue(r[0]) == n / 10 && DigitValue(r[1]) == n % 10;
      assert Pow10(1) == 10;
    }
    r
  }
  /** LocalTime.toString: HH:mm, then :ss when seconds or nanos are set, then the
      nanos in groups of three digits (3, 6 or 9 of them). */
  function TimeToString(t: LocalDateTime): string {
    var hm := FormatZeroPadded(t.hour, 2) + ":" + FormatZeroPadded(t.minute, 2);
    if t.second == 0 && t.nano == 0 then hm
    else hm + ":" + FormatZeroPadded(t.second, 2) + NanoFraction(t.nano)
  }

  function NanoFraction(nano: int): string {
    if nano == 0 then ""
    else if nano % 1000000 == 0 then "." + FormatZeroPadded(nano / 1000000, 3)
    else if nano % 1000 == 0 then "." + FormatZeroPadded(nano / 1000, 6)
    else "." + FormatZeroPadded(nano, 9)
  }

  /** LocalDate.toString: a four-digit year (with a sign beyond 9999 or below 0), then
      -MM-dd. */
  function DateToString(t: LocalDateTime): string {
    var year :=
      if t.year > 9999 then "+" + NatToString(t.year)
      else if t.year >= 0 then FormatZeroPadded(t.year, 4)
      else "-" + FormatZeroPadded(-t.year, 4);
    year + "-" + FormatZeroPadded(t.month, 2) + "-" + FormatZeroPadded(t.day, 2)
  }

  /** LocalDateTime.toString: the date, 'T', the time. */
  function DateTimeToString(t: LocalDateTime): string {
    DateToString(t) + "T" + TimeToString(t)
  }
}
