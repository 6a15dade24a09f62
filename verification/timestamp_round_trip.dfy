/**
 * The "Generated at" value across the report file: the writer prints
 * LocalDateTime.toString, whose length depends on the seconds and the nanoseconds, and the
 * reader accepts only the microsecond and the seconds layouts, falling back to the clock.
 */
module TimestampRoundTrip {
  import opened Wrappers
  import opened JavaString
  import opened Clock
  import opened SwiftReader

  /** A value below 10^width prints as exactly `width` digits worth the value. */
  lemma Padded(v: int, width: nat)
    requires width >= 1 && 0 <= v < Pow10(width)
    ensures |FormatZeroPadded(v, width)| == width && AllDigits(FormatZeroPadded(v, width))
    ensures DigitsValue(FormatZeroPadded(v, width)) == v
  {
    ZeroPaddedValue(v, width);
    NatToStringLength(v, width);
  }

  lemma Pow10Small()
    ensures Pow10(2) == 100 && Pow10(3) == 1000 && Pow10(4) == 10000 && Pow10(6) == 1000000
  {
    assert Pow10(1) == 10;
    assert Pow10(5) == 100000;
  }

  /** A digit group of a layout: exactly `width` ASCII digits. */
  predicate Group(s: string, width: nat) {
    |s| == width && AllDigits(s)
  }

  /** yyyy-MM-ddTHH:mm:ss, the seconds layout the reader tries second. */
  function SecondsLayout(y: string, mo: string, d: string, h: string, mi: string, se: string): string {
    y + "-" + mo + "-" + d + "T" + (h + ":" + mi + ":" + se)
  }

  /** yyyy-MM-ddTHH:mm:ss.SSSSSS, the microsecond layout the reader tries first. */
  function MicrosLayout(y: string, mo: string, d: string, h: string, mi: string, se: string, f: string): string {
    y + "-" + mo + "-" + d + "T" + (h + ":" + mi + ":" + se + ("." + f))
  }

  /** The nineteen characters of the seconds layout, and where each group sits. */
  lemma SecondsText(y: string, mo: string, d: string, h: string, mi: string, se: string)
    requires |y| == 4 && |mo| == 2 && |d| == 2 && |h| == 2 && |mi| == 2 && |se| == 2
    ensures var text := SecondsLayout(y, mo, d, h, mi, se);
      |text| == 19 && text[4] == '-' && text[7] == '-' && text[10] == 'T' && text[13] == ':' && text[16] == ':'
      && text[0..4] == y && text[5..7] == mo && text[8..10] == d
      && text[11..13] == h && text[14..16] == mi && text[17..19] == se
  {
  }

  /** The twenty-six characters of the microsecond layout, and where each group sits. */
  lemma MicrosText(y: string, mo: string, d: string, h: string, mi: string, se: string, f: string)
    requires |y| == 4 && |mo| == 2 && |d| == 2 && |h| == 2 && |mi| == 2 && |se| == 2 && |f| == 6
    ensures var text := MicrosLayout(y, mo, d, h, mi, se, f);
      |text| == 26 && text[4] == '-' && text[7] == '-' && text[10] == 'T' && text[13] == ':' && text[16] == ':'
      && text[19] == '.'
      && text[0..4] == y && text[5..7] == mo && text[8..10] == d
      && text[11..13] == h && text[14..16] == mi && text[17..19] == se && text[20..26] == f
  {
  }

  /** The groups of a date and time that java.time accepts. */
  predicate InRange(year: int, month: int, day: int, hour: int, minute: int, second: int) {
    1 <= year && 1 <= month <= 12 && 1 <= day <= MonthLength(year, month) && hour <= 23 && minute <= 59
    && second <= 59
  }

  /** A text with the separators in place and in-range digit groups is accepted as it is. */
  lemma LayoutAccepts(text: string, micros: bool)
    requires |text| == (if micros then 26 else 19)
    requires text[4] == '-' && text[7] == '-' && text[10] == 'T' && text[13] == ':' && text[16] == ':'
    requires micros ==> text[19] == '.' && AllDigits(text[20..26])
    requires AllDigits(text[0..4]) && AllDigits(text[5..7]) && AllDigits(text[8..10])
    requires AllDigits(text[11..13]) && AllDigits(text[14..16]) && AllDigits(text[17..19])
    requires InRange(DigitsValue(text[0..4]), DigitsValue(text[5..7]), DigitsValue(text[8..10]),
                     DigitsValue(text[11..13]), DigitsValue(text[14..16]), DigitsValue(text[17..19]))
    ensures ParseLayout(text, micros)
         == Some(LocalDateTime(DigitsValue(text[0..4]), DigitsValue(text[5..7]), DigitsValue(text[8..10]),
                               DigitsValue(text[11..13]), DigitsValue(text[14..16]), DigitsValue(text[17..19]),
                               if micros then DigitsValue(text[20..26]) * 1000 else 0))
  {
  }

  /** The seconds layout parses to its groups' values; the microsecond layout refuses it. */
  lemma ParseSeconds(y: string, mo: string, d: string, h: string, mi: string, se: string)
    requires Group(y, 4) && Group(mo, 2) && Group(d, 2) && Group(h, 2) && Group(mi, 2) && Group(se, 2)
    requires InRange(DigitsValue(y), DigitsValue(mo), DigitsValue(d), DigitsValue(h), DigitsValue(mi), DigitsValue(se))
    ensures var text := SecondsLayout(y, mo, d, h, mi, se);
      ParseLayout(text, true) == None
      && ParseLayout(text, false)
         == Some(LocalDateTime(DigitsValue(y), DigitsValue(mo), DigitsValue(d), DigitsValue(h), DigitsValue(mi),
                               DigitsValue(se), 0))
  {
    SecondsText(y, mo, d, h, mi, se);
    LayoutAccepts(SecondsLayout(y, mo, d, h, mi, se), false);
  }

  /** The microsecond layout parses to its groups' values, the fraction in microseconds. */
  lemma ParseMicros(y: string, mo: string, d: string, h: string, mi: string, se: string, f: string)
    requires Group(y, 4) && Group(mo, 2) && Group(d, 2) && Group(h, 2) && Group(mi, 2) && Group(se, 2)
    requires Group(f, 6)
    requires InRange(DigitsValue(y), DigitsValue(mo), DigitsValue(d), DigitsValue(h), DigitsValue(mi), DigitsValue(se))
    ensures var text := MicrosLayout(y, mo, d, h, mi, se, f);
      ParseLayout(text, true)
      == Some(LocalDateTime(DigitsValue(y), DigitsValue(mo), DigitsValue(d), DigitsValue(h), DigitsValue(mi),
                            DigitsValue(se), DigitsValue(f) * 1000))
  {
    MicrosText(y, mo, d, h, mi, se, f);
    LayoutAccepts(MicrosLayout(y, mo, d, h, mi, se, f), true);
  }

  /** The groups toString prints for a date and time with a year from 1 to 9999: fixed
      widths, digits only, worth the fields. */
  lemma Groups(g: LocalDateTime)
    requires Valid(g) && 1 <= g.year <= 9999
    ensures DateToString(g) == FormatZeroPadded(g.year, 4) + "-" + FormatZeroPadded(g.month, 2) + "-"
                               + FormatZeroPadded(g.day, 2)
    ensures var y, mo, d := FormatZeroPadded(g.year, 4), FormatZeroPadded(g.month, 2), FormatZeroPadded(g.day, 2);
      Group(y, 4) && Group(mo, 2) && Group(d, 2)
      && DigitsValue(y) == g.year && DigitsValue(mo) == g.month && DigitsValue(d) == g.day
    ensures var h, mi, se := FormatZeroPadded(g.hour, 2), FormatZeroPadded(g.minute, 2), FormatZeroPadded(g.second, 2);
      Group(h, 2) && Group(mi, 2) && Group(se, 2)
      && DigitsValue(h) == g.hour && DigitsValue(mi) == g.minute && DigitsValue(se) == g.second
  {
    Pow10Small();
    Padded(g.year, 4);
    Padded(g.month, 2);
    Padded(g.day, 2);
    Padded(g.hour, 2);
    Padded(g.minute, 2);
    Padded(g.second, 2);
  }

  /** A whole number of seconds past a minute prints in the seconds layout, which reads it
      back exactly. */
  lemma SecondsRoundTrip(g: LocalDateTime, now: LocalDateTime)
    requires Valid(g) && 1 <= g.year <= 9999 && g.day <= MonthLength(g.year, g.month)
    requires g.nano == 0 && g.second != 0
    ensures ParseTimestamp(DateTimeToString(g), now) == g
  {
    Groups(g);
    var y, mo, d := FormatZeroPadded(g.year, 4), FormatZeroPadded(g.month, 2), FormatZeroPadded(g.day, 2);
    var h, mi, se := FormatZeroPadded(g.hour, 2), FormatZeroPadded(g.minute, 2), FormatZeroPadded(g.second, 2);
    assert TimeToString(g) == h + ":" + mi + ":" + se + "";
    assert DateTimeToString(g) == SecondsLayout(y, mo, d, h, mi, se);
    ParseSeconds(y, mo, d, h, mi, se);
  }

  /** A time with whole microseconds, not whole milliseconds, prints in the microsecond
      layout, which reads it back exactly. */
  lemma MicrosRoundTrip(g: LocalDateTime, now: LocalDateTime)
    requires Valid(g) && 1 <= g.year <= 9999 && g.day <= MonthLength(g.year, g.month)
    requires g.nano % 1000 == 0 && g.nano % 1000000 != 0
    ensures ParseTimestamp(DateTimeToString(g), now) == g
  {
    Groups(g);
    Pow10Small();
    Padded(g.nano / 1000, 6);
    var y, mo, d := FormatZeroPadded(g.year, 4), FormatZeroPadded(g.month, 2), FormatZeroPadded(g.day, 2);
    var h, mi, se := FormatZeroPadded(g.hour, 2), FormatZeroPadded(g.minute, 2), FormatZeroPadded(g.second, 2);
    var f := FormatZeroPadded(g.nano / 1000, 6);
    assert TimeToString(g) == h + ":" + mi + ":" + se + ("." + f);
    assert DateTimeToString(g) == MicrosLayout(y, mo, d, h, mi, se, f);
    ParseMicros(y, mo, d, h, mi, se, f);
  }

  /** LocalTime.toString is five characters on the minute, eight on the second, and twelve,
      fifteen or eighteen with three, six or nine fraction digits. */
  lemma TimeLength(g: LocalDateTime)
    requires Valid(g)
    ensures |TimeToString(g)| ==
      if g.second == 0 && g.nano == 0 then 5
      else if g.nano == 0 then 8
      else if g.nano % 1000000 == 0 then 12
      else if g.nano % 1000 == 0 then 15
      else 18
  {
    Pow10Small();
    Padded(g.hour, 2);
    Padded(g.minute, 2);
    Padded(g.second, 2);
    if g.nano != 0 {
      if g.nano % 1000000 == 0 {
        Padded(g.nano / 1000000, 3);
      } else if g.nano % 1000 == 0 {
        Padded(g.nano / 1000, 6);
      } else {
        Pow10Add(3, 6);
        Padded(g.nano, 9);
      }
    }
  }

  /** A time on the minute prints without seconds, one on a whole millisecond with three
      fraction digits and any other with nine: neither layout accepts those, and the clock
      reading stands in. */
  lemma ClockFallback(g: LocalDateTime, now: LocalDateTime)
    requires Valid(g) && 1 <= g.year <= 9999
    requires (g.second == 0 && g.nano == 0) || (g.nano != 0 && g.nano % 1000000 == 0) || g.nano % 1000 != 0
    ensures ParseTimestamp(DateTimeToString(g), now) == now
  {
    Groups(g);
    TimeLength(g);
    assert |DateTimeToString(g)| == 11 + |TimeToString(g)|;
  }

  /** The generation time the header carries, as parseTimestamp reads it back. */
  lemma GeneratedAtRoundTrip(g: LocalDateTime, now: LocalDateTime)
    requires Valid(g) && 1 <= g.year <= 9999 && g.day <= MonthLength(g.year, g.month)
    ensures g.nano == 0 && g.second != 0 ==> ParseTimestamp(DateTimeToString(g), now) == g
    ensures g.nano % 1000 == 0 && g.nano % 1000000 != 0 ==> ParseTimestamp(DateTimeToString(g), now) == g
    ensures (g.second == 0 && g.nano == 0) || (g.nano != 0 && g.nano % 1000000 == 0) || g.nano % 1000 != 0
            ==> ParseTimestamp(DateTimeToString(g), now) == now
  {
    if g.nano == 0 && g.second != 0 {
      SecondsRoundTrip(g, now);
    } else if g.nano % 1000 == 0 && g.nano % 1000000 != 0 {
      MicrosRoundTrip(g, now);
    } else {
      ClockFallback(g, now);
    }
  }
}
