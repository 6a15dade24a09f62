/**
 * The report file read back: what SwiftFileReaderService recovers from the text
 * SwiftFileWriterService writes for an event and its detection result.
 */
module SwiftRoundTrip {
  import opened Wrappers
  import opened JavaString
  import opened BigDec
  import opened Clock
  import opened AlertModel
  import opened SwiftWriter
  import opened SwiftReader

  // ---------------------------------------------------------------------------
  // Reading one header line
  // ---------------------------------------------------------------------------

  /** A value line trims to its label followed by the value's trim. */
  lemma ValueLineTrim(p: string, v: string)
    requires p != [] && p[0] > ' ' && p[|p| - 1] > ' '
    ensures StartsWith(Trim(p + (" " + v)), p)
    ensures ExtractValue(Trim(p + (" " + v)), p) == Trim(v)
  {
    TrimVisiblePrefix(p, " " + v);
    TrimBlankPrefix(" ", v);
  }

  lemma IdLine(s: ReadState, v: string, now: LocalDateTime)
    ensures ReadLine(s, IdLabel + " " + v, now) == s.(transaction := s.transaction.(transactionId := Some(Trim(v))))
  {
    assert IdLabel + " " + v == IdLabel + (" " + v);
    ValueLineTrim(IdLabel, v);
    HeaderLineEffect(s, IdLabel + (" " + v), now);
  }

  /** Which branch of headerField a line with a given label takes. */
  lemma AmountField(line: string, t: Transaction, now: LocalDateTime)
    requires StartsWith(line, AmountLabel)
    ensures HeaderField(line, t, now) == Some(ParseAmountValue(t, ExtractValue(line, AmountLabel)))
  {
    OtherLabel(line, AmountLabel, IdLabel, 3);
  }

  lemma FromField(line: string, t: Transaction, now: LocalDateTime)
    requires StartsWith(line, FromLabel)
    ensures HeaderField(line, t, now) == Some(t.(fromBankName := Some(ExtractValue(line, FromLabel))))
  {
    OtherLabel(line, FromLabel, IdLabel, 3);
    OtherLabel(line, FromLabel, AmountLabel, 3);
  }

  lemma ToField(line: string, t: Transaction, now: LocalDateTime)
    requires StartsWith(line, ToLabel)
    ensures HeaderField(line, t, now) == Some(t.(toBankName := Some(ExtractValue(line, ToLabel))))
  {
    OtherLabel(line, ToLabel, IdLabel, 4);
    OtherLabel(line, ToLabel, AmountLabel, 3);
    OtherLabel(line, ToLabel, FromLabel, 3);
  }

  lemma GeneratedField(line: string, t: Transaction, now: LocalDateTime)
    requires StartsWith(line, GeneratedLabel)
    ensures HeaderField(line, t, now)
         == Some(t.(timestamp := Some(ParseTimestamp(ExtractValue(line, GeneratedLabel), now))))
  {
    GeneratedOnly(line);
  }

  lemma AmountLine(s: ReadState, v: string, now: LocalDateTime)
    ensures ReadLine(s, AmountLabel + " " + v, now) == s.(transaction := ParseAmountValue(s.transaction, Trim(v)))
  {
    assert AmountLabel + " " + v == AmountLabel + (" " + v);
    var line := Trim(AmountLabel + (" " + v));
    ValueLineTrim(AmountLabel, v);
    HeaderLineEffect(s, AmountLabel + (" " + v), now);
    AmountField(line, s.transaction, now);
  }

  lemma FromLine(s: ReadState, v: string, now: LocalDateTime)
    ensures ReadLine(s, FromLabel + " " + v, now) == s.(transaction := s.transaction.(fromBankName := Some(Trim(v))))
  {
    assert FromLabel + " " + v == FromLabel + (" " + v);
    var line := Trim(FromLabel + (" " + v));
    ValueLineTrim(FromLabel, v);
    HeaderLineEffect(s, FromLabel + (" " + v), now);
    FromField(line, s.transaction, now);
  }

  lemma ToLine(s: ReadState, v: string, now: LocalDateTime)
    ensures ReadLine(s, ToLabel + " " + v, now) == s.(transaction := s.transaction.(toBankName := Some(Trim(v))))
  {
    assert ToLabel + " " + v == ToLabel + (" " + v);
    var line := Trim(ToLabel + (" " + v));
    ValueLineTrim(ToLabel, v);
    HeaderLineEffect(s, ToLabel + (" " + v), now);
    ToField(line, s.transaction, now);
  }

  lemma GeneratedOnly(line: string)
    requires StartsWith(line, GeneratedLabel)
    ensures !StartsWith(line, IdLabel) && !StartsWith(line, AmountLabel)
    ensures !StartsWith(line, FromLabel) && !StartsWith(line, ToLabel)
  {
    OtherLabel(line, GeneratedLabel, IdLabel, 3);
    OtherLabel(line, GeneratedLabel, AmountLabel, 3);
    OtherLabel(line, GeneratedLabel, FromLabel, 3);
    OtherLabel(line, GeneratedLabel, ToLabel, 3);
  }

  lemma GeneratedLine(s: ReadState, v: string, now: LocalDateTime)
    ensures ReadLine(s, GeneratedLabel + " " + v, now)
         == s.(transaction := s.transaction.(timestamp := Some(ParseTimestamp(Trim(v), now))))
  {
    assert GeneratedLabel + " " + v == GeneratedLabel + (" " + v);
    var line := Trim(GeneratedLabel + (" " + v));
    ValueLineTrim(GeneratedLabel, v);
    HeaderLineEffect(s, GeneratedLabel + (" " + v), now);
    GeneratedField(line, s.transaction, now);
  }

  /** A comment line that is its own trim and whose fourth to sixth characters rule out
      every header label is passed over. */
  lemma IgnoredComment(line: string)
    requires |line| >= 6 && line[0] == '/' && line[1] == '/' && line[2] == ' ' && line[|line| - 1] > ' '
    requires line[3] != 'T' && line[3] != 'A' && line[3] != 'G'
    requires line[3] != 'F' || line[4] != 'r' || line[5] != 'o'
    ensures Ignored(line)
  {
    TrimOfTrimmed(line);
    assert line[..2] == "//";
    assert Separator[2] == '=';
    DiffersAt(line, IdLabel, 3);
    DiffersAt(line, AmountLabel, 3);
    DiffersAt(line, GeneratedLabel, 3);
    DiffersAt(line, ToLabel, 3);
    if line[3] == 'F' {
      if line[4] != 'r' {
        DiffersAt(line, FromLabel, 4);
      } else {
        DiffersAt(line, FromLabel, 5);
      }
    } else {
      DiffersAt(line, FromLabel, 3);
    }
  }

  // ---------------------------------------------------------------------------
  // Printed values hold no blank and no line feed
  // ---------------------------------------------------------------------------

  /** Every character is above the blank: no space, no line feed, nothing Trim removes. */
  predicate Visible(s: string) { forall i :: 0 <= i < |s| ==> s[i] > ' ' }

  lemma VisibleConcat(a: string, b: string)
    requires Visible(a) && Visible(b)
    ensures Visible(a + b)
  {
    forall i | 0 <= i < |a + b| ensures (a + b)[i] > ' ' {
      if i < |a| { assert (a + b)[i] == a[i]; } else { assert (a + b)[i] == b[i - |a|]; }
    }
  }

  lemma DigitsVisible(s: string)
    requires AllDigits(s)
    ensures Visible(s)
  {
    forall i | 0 <= i < |s| ensures s[i] > ' ' { assert IsDigit(s[i]); }
  }

  lemma ZeroPaddedVisible(v: int, width: nat)
    ensures Visible(FormatZeroPadded(v, width))
  {
    var digits := NatToString(if v < 0 then -v else v);
    var sign := if v < 0 then "-" else "";
    var pad := if |sign| + |digits| < width then width - |sign| - |digits| else 0;
    DigitsVisible(Zeros(pad));
    DigitsVisible(digits);
    VisibleConcat(sign, Zeros(pad));
    VisibleConcat(sign + Zeros(pad), digits);
  }

  lemma IntToStringVisible(v: int)
    ensures Visible(IntToString(v))
  {
    DigitsVisible(NatToString(if v < 0 then -v else v));
    if v < 0 {
      VisibleConcat("-", NatToString(-v));
    }
  }

  lemma DateTimeVisible(t: LocalDateTime)
    ensures Visible(DateTimeToString(t))
  {
    var year :=
      if t.year > 9999 then "+" + NatToString(t.year)
      else if t.year >= 0 then FormatZeroPadded(t.year, 4)
      else "-" + FormatZeroPadded(-t.year, 4);
    if t.year > 9999 {
      DigitsVisible(NatToString(t.year));
      VisibleConcat("+", NatToString(t.year));
    } else if t.year >= 0 {
      ZeroPaddedVisible(t.year, 4);
    } else {
      ZeroPaddedVisible(-t.year, 4);
      VisibleConcat("-", FormatZeroPadded(-t.year, 4));
    }
    ZeroPaddedVisible(t.month, 2);
    ZeroPaddedVisible(t.day, 2);
    VisibleConcat(year, "-");
    VisibleConcat(year + "-", FormatZeroPadded(t.month, 2));
    VisibleConcat(year + "-" + FormatZeroPadded(t.month, 2), "-");
    VisibleConcat(year + "-" + FormatZeroPadded(t.month, 2) + "-", FormatZeroPadded(t.day, 2));
    TimeVisible(t);
    VisibleConcat(DateToString(t), "T");
    VisibleConcat(DateToString(t) + "T", TimeToString(t));
  }

  lemma TimeVisible(t: LocalDateTime)
    ensures Visible(TimeToString(t))
  {
    ZeroPaddedVisible(t.hour, 2);
    ZeroPaddedVisible(t.minute, 2);
    ZeroPaddedVisible(t.second, 2);
    var hm := FormatZeroPadded(t.hour, 2) + ":" + FormatZeroPadded(t.minute, 2);
    VisibleConcat(FormatZeroPadded(t.hour, 2), ":");
    VisibleConcat(FormatZeroPadded(t.hour, 2) + ":", FormatZeroPadded(t.minute, 2));
    if t.second != 0 || t.nano != 0 {
      NanoVisible(t.nano);
      VisibleConcat(hm, ":");
      VisibleConcat(hm + ":", FormatZeroPadded(t.second, 2));
      VisibleConcat(hm + ":" + FormatZeroPadded(t.second, 2), NanoFraction(t.nano));
    }
  }

  lemma NanoVisible(nano: int)
    ensures Visible(NanoFraction(nano))
  {
    if nano != 0 {
      var digits :=
        if nano % 1000000 == 0 then FormatZeroPadded(nano / 1000000, 3)
        else if nano % 1000 == 0 then FormatZeroPadded(nano / 1000, 6)
        else FormatZeroPadded(nano, 9);
      ZeroPaddedVisible(nano / 1000000, 3);
      ZeroPaddedVisible(nano / 1000, 6);
      ZeroPaddedVisible(nano, 9);
      VisibleConcat(".", digits);
    }
  }

  lemma DecimalNonEmpty(d: BigDecimal)
    ensures ToString(d) != []
  {
    if d.scale != 0 && !(d.scale > 0 && Adjusted(d) >= -6) {
      assert |Coefficient(d)[..1]| == 1;
    }
  }

  lemma DecimalVisible(d: BigDecimal)
    ensures Visible(ToString(d))
  {
    var digits := Coefficient(d);
    var sign := if d.unscaled < 0 then "-" else "";
    DigitsVisible(digits);
    if d.scale == 0 {
      VisibleConcat(sign, digits);
    } else if d.scale > 0 && Adjusted(d) >= -6 {
      var k := |digits| - d.scale;
      if |digits| > d.scale {
        DigitsVisible(digits[..k]);
        DigitsVisible(digits[k..]);
        VisibleConcat(digits[..k], ".");
        VisibleConcat(digits[..k] + ".", digits[k..]);
      } else {
        DigitsVisible(Zeros(d.scale - |digits|));
        VisibleConcat("0.", Zeros(d.scale - |digits|));
        VisibleConcat("0." + Zeros(d.scale - |digits|), digits);
      }
      VisibleConcat(sign, PointAt(digits, d.scale));
    } else {
      var adjusted := Adjusted(d);
      var frac := if |digits| > 1 then "." + digits[1..] else "";
      var exp := if adjusted == 0 then "" else "E" + (if adjusted > 0 then "+" else "-") + NatToString(Abs(adjusted));
      DigitsVisible(digits[..1]);
      DigitsVisible(digits[1..]);
      VisibleConcat(".", digits[1..]);
      DigitsVisible(NatToString(Abs(adjusted)));
      VisibleConcat("E" + (if adjusted > 0 then "+" else "-"), NatToString(Abs(adjusted)));
      VisibleConcat(sign, digits[..1]);
      VisibleConcat(sign + digits[..1], frac);
      VisibleConcat(sign + digits[..1] + frac, exp);
    }
  }

  lemma VisibleNoLineFeed(s: string)
    requires Visible(s)
    ensures '\n' !in s
  {
  }

  // ---------------------------------------------------------------------------
  // The file's lines
  // ---------------------------------------------------------------------------

  predicate NoLineFeeds(lines: seq<string>) { forall k :: 0 <= k < |lines| ==> '\n' !in lines[k] }

  /** The values the header prints from the transaction itself (identifier, currency and
      bank names) are single lines. */
  predicate SingleLineValues(t: Transaction) {
    '\n' !in Str(t.transactionId) && '\n' !in Str(t.currency) && '\n' !in Str(t.fromBankName)
    && '\n' !in Str(t.toBankName)
  }

  lemma LabelsSingleLine()
    ensures '\n' !in Title && '\n' !in GeneratedLabel && '\n' !in IdLabel && '\n' !in AmountLabel
    ensures '\n' !in FromLabel && '\n' !in ToLabel
  {
  }

  lemma VerdictSingleLine(result: FraudDetectionResult)
    ensures '\n' !in "// FRAUD STATUS: " + FraudStatus(result)
    ensures '\n' !in RiskLevelName(result.riskLevel) && '\n' !in "// Risk Level: " + RiskLevelName(result.riskLevel)
    ensures '\n' !in "// Risk Score: " + (IntToString(result.riskScore) + "/100")
  {
    IntToStringVisible(result.riskScore);
    VisibleNoLineFeed(IntToString(result.riskScore));
  }

  lemma NineLines(a0: string, a1: string, a2: string, a3: string, a4: string, a5: string, a6: string, a7: string,
                  a8: string)
    requires '\n' !in a0 && '\n' !in a1 && '\n' !in a2 && '\n' !in a3 && '\n' !in a4
    requires '\n' !in a5 && '\n' !in a6 && '\n' !in a7 && '\n' !in a8
    ensures NoLineFeeds([a0] + [a1] + [a2] + [a3] + [a4] + [a5] + [a6] + [a7] + [a8])
  {
    assert [a0] + [a1] + [a2] + [a3] + [a4] + [a5] + [a6] + [a7] + [a8] == [a0, a1, a2, a3, a4, a5, a6, a7, a8];
  }

  lemma TopLinesNoLineFeed(event: TransactionWithMt103Event, result: FraudDetectionResult, g: LocalDateTime)
    requires SingleLineValues(event.transaction)
    ensures NoLineFeeds(TopLines(event, result, g))
  {
    var t := event.transaction;
    DateTimeVisible(g);
    VisibleNoLineFeed(DateTimeToString(g));
    if t.amount.Some? {
      DecimalVisible(t.amount.value);
      VisibleNoLineFeed(ToString(t.amount.value));
    }
    LabelsSingleLine();
    VerdictSingleLine(result);
    NineLines(Title, GeneratedLabel + " " + DateTimeToString(g), IdLabel + " " + Str(t.transactionId),
      AmountLabel + " " + (AmountText(t.amount) + " " + Str(t.currency)), FromLabel + " " + Str(t.fromBankName),
      ToLabel + " " + Str(t.toBankName), "// FRAUD STATUS: " + FraudStatus(result),
      "// Risk Score: " + (IntToString(result.riskScore) + "/100"), "// Risk Level: " + RiskLevelName(result.riskLevel));
  }

  // The descriptions are checked two at a time: one literal at a time is cheap for the
  // solver, eight at once are not.
  lemma DescriptionsSingleLine1(t: FraudType)
    requires t.HighAmountThreshold? || t.OffHoursTransaction?
    ensures '\n' !in FraudTypeDescription(t)
  {
  }

  lemma DescriptionsSingleLine2(t: FraudType)
    requires t.SuspiciousRemittance? || t.RoundAmountPattern?
    ensures '\n' !in FraudTypeDescription(t)
  {
  }

  lemma DescriptionsSingleLine3(t: FraudType)
    requires t.FrequentSmallAmounts? || t.CrossBorderHighRisk?
    ensures '\n' !in FraudTypeDescription(t)
  {
  }

  lemma DescriptionsSingleLine4(t: FraudType)
    requires t.StructuringPattern? || t.CryptocurrencyKeywords?
    ensures '\n' !in FraudTypeDescription(t)
  {
  }

  lemma AlertLineSingleLine(alert: FraudAlert)
    ensures '\n' !in AlertLine(alert)
  {
    var t := alert.fraudType;
    assert '\n' !in "//   - ";
    if t.HighAmountThreshold? || t.OffHoursTransaction? {
      DescriptionsSingleLine1(t);
    } else if t.SuspiciousRemittance? || t.RoundAmountPattern? {
      DescriptionsSingleLine2(t);
    } else if t.FrequentSmallAmounts? || t.CrossBorderHighRisk? {
      DescriptionsSingleLine3(t);
    } else {
      DescriptionsSingleLine4(t);
    }
  }

  lemma CountLineSingleLine(n: int)
    ensures '\n' !in "// Fraud Alerts: " + IntToString(n)
  {
    IntToStringVisible(n);
    VisibleNoLineFeed(IntToString(n));
  }

  lemma AlertSectionNoLineFeed(alerts: Option<seq<FraudAlert>>)
    ensures NoLineFeeds(AlertSection(alerts))
  {
    if alerts.Some? && alerts.value != [] {
      var r := AlertSection(alerts);
      CountLineSingleLine(|alerts.value|);
      forall k | 1 <= k < |r| ensures '\n' !in r[k] {
        AlertLineSingleLine(alerts.value[k - 1]);
      }
    }
  }

  lemma ClosingSingleLine()
    ensures '\n' !in Separator && '\n' !in NoContent && NoContent != ""
  {
  }

  lemma HeaderLinesNoLineFeed(event: TransactionWithMt103Event, result: FraudDetectionResult, g: LocalDateTime)
    requires SingleLineValues(event.transaction)
    ensures NoLineFeeds(HeaderLines(event, result, g))
  {
    var top, section := TopLines(event, result, g), AlertSection(result.alerts);
    TopLinesNoLineFeed(event, result, g);
    AlertSectionNoLineFeed(result.alerts);
    ClosingSingleLine();
    var h := HeaderLines(event, result, g);
    forall k | 0 <= k < |h| ensures '\n' !in h[k] {
      if k < |top| {
        assert h[k] == top[k];
      } else if k < |top| + |section| {
        assert h[k] == section[k - |top|];
      }
    }
  }

  /** Text that ends a line has a line feed in it. */
  lemma LineFeedIn(lines: seq<string>, rest: string)
    requires lines != []
    ensures '\n' in LinesText(lines) + rest
  {
    var init := LinesText(lines[..|lines| - 1]) + lines[|lines| - 1];
    assert LinesText(lines) + rest == init + "\n" + rest;
    assert (init + "\n" + rest)[|init|] == '\n';
  }

  /** Splitting single lines followed by a last non-empty line without a line feed. */
  lemma SplitLines(lines: seq<string>, last: string)
    requires NoLineFeeds(lines) && lines != []
    requires '\n' !in last && last != ""
    ensures JavaSplit(LinesText(lines) + last, '\n') == lines + [last]
  {
    PiecesOfLines(lines, last);
    PiecesNoSep(last, '\n');
    LineFeedIn(lines, last);
  }

  /** What the reader's split sees in a report whose MT103 text was null or blank: the
      header's lines, then the placeholder line. */
  lemma PlaceholderFileLines(event: TransactionWithMt103Event, result: FraudDetectionResult, g: LocalDateTime)
    requires SingleLineValues(event.transaction)
    requires event.mt103Content.None? || Trim(event.mt103Content.value) == ""
    ensures JavaSplit(FileContent(event, result, g), '\n') == HeaderLines(event, result, g) + [NoContent]
  {
    HeaderLinesNoLineFeed(event, result, g);
    ClosingSingleLine();
    SplitLines(HeaderLines(event, result, g), NoContent);
  }

  // ---------------------------------------------------------------------------
  // Reading the header back
  // ---------------------------------------------------------------------------

  /** A line whose first six characters are a comment marker and something that rules out
      every label is passed over, whatever follows them. */
  lemma IgnoredCommentLine(p: string, v: string)
    requires |p| >= 6 && p[0] == '/' && p[1] == '/' && p[2] == ' ' && p[5] > ' '
    requires p[3] != 'T' && p[3] != 'A' && p[3] != 'G'
    requires p[3] != 'F' || p[4] != 'r' || p[5] != 'o'
    ensures Ignored(p + v)
  {
    var head, rest := p[..6], p[6..] + v;
    assert p + v == head + rest;
    TrimVisiblePrefix(head, rest);
    var line := Trim(p + v);
    assert line[..6] == head;
    assert line[0] == p[0] && line[1] == p[1] && line[2] == p[2];
    assert line[3] == p[3] && line[4] == p[4] && line[5] == p[5];
    IgnoredComment(line);
    TrimOfTrimmed(line);
  }

  lemma TitleIgnored()
    ensures Ignored(Title)
  {
    IgnoredComment(Title);
  }

  lemma StatusIgnored(result: FraudDetectionResult)
    ensures Ignored("// FRAUD STATUS: " + FraudStatus(result))
  {
    IgnoredCommentLine("// FRAUD STATUS: ", FraudStatus(result));
  }

  lemma ScoreIgnored(result: FraudDetectionResult)
    ensures Ignored("// Risk Score: " + (IntToString(result.riskScore) + "/100"))
  {
    IgnoredCommentLine("// Risk Score: ", IntToString(result.riskScore) + "/100");
  }

  lemma LevelIgnored(result: FraudDetectionResult)
    ensures Ignored("// Risk Level: " + RiskLevelName(result.riskLevel))
  {
    IgnoredCommentLine("// Risk Level: ", RiskLevelName(result.riskLevel));
  }

  lemma ReadOne(s: ReadState, line: string, now: LocalDateTime)
    ensures ReadLines(s, [line], now) == ReadLine(s, line, now)
  {
    assert [line][1..] == [];
  }

  lemma ReadSnoc(s: ReadState, lines: seq<string>, line: string, now: LocalDateTime)
    ensures ReadLines(s, lines + [line], now) == ReadLine(ReadLines(s, lines, now), line, now)
  {
    ReadLinesAppend(s, lines, [line], now);
    ReadOne(ReadLines(s, lines, now), line, now);
  }

  /** The nine top lines leave the state with what the five value lines carry: the
      generation time, the identifier, the amount and currency, the two bank names. */
  lemma ReadTopLines(event: TransactionWithMt103Event, result: FraudDetectionResult, g: LocalDateTime, now: LocalDateTime)
    ensures var t := event.transaction;
      ReadLines(Start, TopLines(event, result, g), now)
      == Start.(transaction := ParseAmountValue(
                  EmptyTransaction.(timestamp := Some(ParseTimestamp(Trim(DateTimeToString(g)), now)),
                                    transactionId := Some(Trim(Str(t.transactionId)))),
                  Trim(AmountText(t.amount) + " " + Str(t.currency)))
                .(fromBankName := Some(Trim(Str(t.fromBankName))), toBankName := Some(Trim(Str(t.toBankName)))))
  {
    var t := event.transaction;
    var l0, l1, l2 := Title, GeneratedLabel + " " + DateTimeToString(g), IdLabel + " " + Str(t.transactionId);
    var l3 := AmountLabel + " " + (AmountText(t.amount) + " " + Str(t.currency));
    var l4, l5 := FromLabel + " " + Str(t.fromBankName), ToLabel + " " + Str(t.toBankName);
    var l6, l7 := "// FRAUD STATUS: " + FraudStatus(result), "// Risk Score: " + (IntToString(result.riskScore) + "/100");
    var l8 := "// Risk Level: " + RiskLevelName(result.riskLevel);
    var p6 := [l0] + [l1] + [l2] + [l3] + [l4] + [l5];
    assert TopLines(event, result, g) == p6 + [l6] + [l7] + [l8];
    TitleIgnored();
    ReadOne(Start, l0, now);
    var s1 := Start;
    GeneratedLine(s1, DateTimeToString(g), now);
    ReadSnoc(Start, [l0], l1, now);
    var s2 := ReadLine(s1, l1, now);
    IdLine(s2, Str(t.transactionId), now);
    ReadSnoc(Start, [l0] + [l1], l2, now);
    var s3 := ReadLine(s2, l2, now);
    AmountLine(s3, AmountText(t.amount) + " " + Str(t.currency), now);
    ReadSnoc(Start, [l0] + [l1] + [l2], l3, now);
    var s4 := ReadLine(s3, l3, now);
    FromLine(s4, Str(t.fromBankName), now);
    ReadSnoc(Start, [l0] + [l1] + [l2] + [l3], l4, now);
    var s5 := ReadLine(s4, l4, now);
    ToLine(s5, Str(t.toBankName), now);
    ReadSnoc(Start, [l0] + [l1] + [l2] + [l3] + [l4], l5, now);
    var s6 := ReadLine(s5, l5, now);
    assert ReadLines(Start, p6, now) == s6;
    StatusIgnored(result);
    ScoreIgnored(result);
    LevelIgnored(result);
    ReadSnoc(Start, p6, l6, now);
    ReadSnoc(Start, p6 + [l6], l7, now);
    ReadSnoc(Start, p6 + [l6] + [l7], l8, now);
  }

  lemma CountIgnored(n: int)
    ensures Ignored("// Fraud Alerts: " + IntToString(n))
  {
    IgnoredCommentLine("// Fraud Alerts: ", IntToString(n));
  }

  lemma AlertLineIgnored(alert: FraudAlert)
    ensures Ignored(AlertLine(alert))
  {
    IgnoredCommentLine("//   - ", FraudTypeDescription(alert.fraudType));
  }

  lemma AlertSectionIgnored(alerts: Option<seq<FraudAlert>>)
    ensures forall k :: 0 <= k < |AlertSection(alerts)| ==> Ignored(AlertSection(alerts)[k])
  {
    var r := AlertSection(alerts);
    if r != [] {
      CountIgnored(|alerts.value|);
      forall k | 1 <= k < |r| ensures Ignored(r[k]) {
        AlertLineIgnored(alerts.value[k - 1]);
      }
    }
  }

  // ---------------------------------------------------------------------------
  // The amount line
  // ---------------------------------------------------------------------------

  /** A null amount is printed as "null", which new BigDecimal refuses. */
  lemma NullIsNotADecimal()
    ensures Parse("null") == None
  {
    NoExponentMark("null");
    assert "null"[..4] == "null";
    assert !IsDigit("null"[0]);
  }

  /** The amount line's value splits back into the printed amount and the currency. */
  lemma AmountValueSplit(a: string, c: string)
    requires Visible(a) && a != [] && Visible(c) && c != []
    ensures Trim(a + " " + c) == a + " " + c
    ensures JavaSplit(a + " " + c, ' ') == [a, c]
  {
    var v := a + " " + c;
    assert v[0] == a[0] && v[|v| - 1] == c[|c| - 1];
    TrimOfTrimmed(v);
    assert v == a + [' '] + c;
    assert v[|a|] == ' ';
    PiecesConcat(a, c, ' ');
    PiecesNoSep(c, ' ');
  }

  /** The amount line read back: a plain-notation amount and its currency come back as they
      were. */
  lemma AmountRoundTrip(x: Transaction, d: BigDecimal, c: string)
    requires Visible(c) && c != []
    requires PlainNotation(d)
    ensures ParseAmountValue(x, Trim(ToString(d) + " " + c)) == x.(amount := Some(d), currency := Some(c))
  {
    DecimalVisible(d);
    DecimalNonEmpty(d);
    ParseToString(d);
    AmountValueSplit(ToString(d), c);
  }

  /** A null amount leaves both the amount and the currency unset. */
  lemma NullAmountRoundTrip(x: Transaction, c: string)
    requires Visible(c) && c != []
    ensures ParseAmountValue(x, Trim("null" + " " + c)) == x
  {
    NullIsNotADecimal();
    assert Visible("null");
    AmountValueSplit("null", c);
  }

  // ---------------------------------------------------------------------------
  // The whole file read back
  // ---------------------------------------------------------------------------

  lemma NoContentIgnored()
    ensures Ignored(NoContent)
  {
    IgnoredComment(NoContent);
  }

  /** The separator opens the MT103 section; the blank line and the placeholder after it
      change nothing. */
  lemma ReadClosing(s: ReadState, now: LocalDateTime)
    ensures ReadLines(s, [Separator, "", NoContent], now) == s.(inSection := true)
  {
    TrimOfTrimmed(Separator);
    TrimOfTrimmed("");
    NoContentIgnored();
    var s1 := ReadLine(s, Separator, now);
    assert s1 == s.(inSection := true);
    assert [Separator, "", NoContent][1..] == ["", NoContent];
    assert ["", NoContent][1..] == [NoContent];
    ReadOne(s1, NoContent, now);
  }

  /** The header followed by the placeholder leaves what the top lines set, inside the
      MT103 section, with nothing collected. */
  lemma ReadPlaceholderLines(event: TransactionWithMt103Event, result: FraudDetectionResult, g: LocalDateTime,
                             now: LocalDateTime)
    ensures ReadLines(Start, HeaderLines(event, result, g) + [NoContent], now)
         == ReadLines(Start, TopLines(event, result, g), now).(inSection := true)
  {
    var top, section := TopLines(event, result, g), AlertSection(result.alerts);
    var closing: seq<string> := [Separator, "", NoContent];
    assert HeaderLines(event, result, g) == top + section + [Separator, ""];
    Regroup(top, section, [Separator, ""], [NoContent]);
    assert [Separator, ""] + [NoContent] == closing;
    ReadLinesAppend(Start, top, section + closing, now);
    var s := ReadLines(Start, top, now);
    ReadLinesAppend(s, section, closing, now);
    AlertSectionIgnored(result.alerts);
    IgnoredLines(s, section, now);
    ReadClosing(s, now);
  }

  lemma GeneratedTextTrimmed(g: LocalDateTime)
    ensures Trim(DateTimeToString(g)) == DateTimeToString(g)
  {
    DateTimeVisible(g);
    assert |DateTimeToString(g)| > 0;
    TrimOfTrimmed(DateTimeToString(g));
  }

  /** What the header's value lines set on a fresh transaction: the generation time, the
      identifier, the amount and currency, the two bank names. */
  function HeaderFields(t: Transaction, g: LocalDateTime, now: LocalDateTime): Transaction {
    ParseAmountValue(
      EmptyTransaction.(timestamp := Some(ParseTimestamp(DateTimeToString(g), now)),
                        transactionId := Some(Trim(Str(t.transactionId)))),
      Trim(AmountText(t.amount) + " " + Str(t.currency)))
    .(fromBankName := Some(Trim(Str(t.fromBankName))), toBankName := Some(Trim(Str(t.toBankName))))
  }

  /** The transaction the header carries, as ReadFile returns it for a report whose MT103
      text was null or blank. */
  lemma PlaceholderTransaction(event: TransactionWithMt103Event, result: FraudDetectionResult, g: LocalDateTime,
                               now: LocalDateTime)
    requires SingleLineValues(event.transaction)
    requires event.mt103Content.None? || Trim(event.mt103Content.value) == ""
    ensures var s := ReadLines(Start, JavaSplit(FileContent(event, result, g), '\n'), now);
      s.body == "" && s.inSection && s.transaction == HeaderFields(event.transaction, g, now)
  {
    PlaceholderFileLines(event, result, g);
    ReadPlaceholderLines(event, result, g, now);
    ReadTopLines(event, result, g, now);
    GeneratedTextTrimmed(g);
  }

  /** A report written for an event without MT103 text, read back: the identifier, the
      generation time, the amount and currency and the bank names come back from the
      header, the status is the drawn one, the MT103 content stays null and every field the
      header does not print stays null. A null amount comes back as zero US dollars. */
  lemma PlaceholderRoundTrip(event: TransactionWithMt103Event, result: FraudDetectionResult, g: LocalDateTime,
                             fileName: string, now: LocalDateTime, millis: int, draw: nat)
    requires draw < |TrxStatus|
    requires SingleLineValues(event.transaction)
    requires event.mt103Content.None? || Trim(event.mt103Content.value) == ""
    requires event.transaction.amount.Some? ==> PlainNotation(event.transaction.amount.value)
    requires Visible(Str(event.transaction.currency)) && Str(event.transaction.currency) != ""
    ensures var r := ReadFile(FileContent(event, result, g), fileName, now, millis, draw);
      var t, u := event.transaction, r.transaction;
      r.mt103Content == None
      && u.transactionId == Some(Trim(Str(t.transactionId)))
      && u.timestamp == Some(ParseTimestamp(DateTimeToString(g), now))
      && u.amount == Some(t.amount.GetOr(Zero))
      && u.currency == Some(if t.amount.Some? then Str(t.currency) else "USD")
      && u.fromBankName == Some(Trim(Str(t.fromBankName))) && u.toBankName == Some(Trim(Str(t.toBankName)))
      && u.status == Some(TrxStatus[draw])
      && u.fromAccount == None && u.toAccount == None && u.fromBankSwift == None && u.toBankSwift == None
      && u.fromIBAN == None && u.toIBAN == None && u.fromCountryCode == None && u.toCountryCode == None
  {
    var t := event.transaction;
    PlaceholderTransaction(event, result, g, now);
    var x := EmptyTransaction.(timestamp := Some(ParseTimestamp(DateTimeToString(g), now)),
                               transactionId := Some(Trim(Str(t.transactionId))));
    if t.amount.Some? {
      AmountRoundTrip(x, t.amount.value, Str(t.currency));
    } else {
      NullAmountRoundTrip(x, Str(t.currency));
    }
  }

  // ---------------------------------------------------------------------------
  // A report with MT103 text
  // ---------------------------------------------------------------------------

  /** A line of MT103 text the reader collects as it is: not empty, without surrounding
      blanks, and not a "//" comment. */
  predicate BodyLine(l: string) {
    l != "" && Trim(l) == l && !StartsWith(l, "//")
  }

  /** MT103 text every line of which the reader collects as it is. */
  predicate BodyText(body: string) {
    var lines := Pieces(body, '\n');
    forall k :: 0 <= k < |lines| ==> BodyLine(lines[k])
  }

  /** Joining a text's pieces with the separator gives the text back. */
  lemma {:induction false} JoinPieces(s: string)
    ensures Join(Pieces(s, '\n'), "\n") == s
  {
    if s != [] {
      var rest := Pieces(s[1..], '\n');
      JoinPieces(s[1..]);
      if s[0] == '\n' {
        assert Pieces(s, '\n') == [""] + rest;
        JoinFront(rest, "\n");
        assert s == "\n" + s[1..];
      } else {
        assert Pieces(s, '\n') == [[s[0]] + rest[0]] + rest[1..];
        JoinHead(s[0], rest, "\n");
        assert s == [s[0]] + s[1..];
      }
    }
  }

  /** An empty first line puts a separator in front of the rest. */
  lemma JoinFront(rest: seq<string>, sep: string)
    requires rest != []
    ensures Join([""] + rest, sep) == sep + Join(rest, sep)
  {
    var l := [""] + rest;
    assert l[1..] == rest;
  }

  /** A character put in front of the first line goes in front of the joined text. */
  lemma JoinHead(c: char, rest: seq<string>, sep: string)
    requires rest != []
    ensures Join([[c] + rest[0]] + rest[1..], sep) == [c] + Join(rest, sep)
  {
    var l := [[c] + rest[0]] + rest[1..];
    if |rest| > 1 {
      assert l[1..] == rest[1..];
    }
  }

  /** Inside the MT103 section, body lines are collected one after the other, joined by
      line feeds. */
  lemma {:induction false} CollectJoin(s: ReadState, lines: seq<string>, now: LocalDateTime)
    requires s.inSection && lines != []
    requires forall k :: 0 <= k < |lines| ==> BodyLine(lines[k])
    ensures ReadLines(s, lines, now) == s.(body := Collect(s.body, Join(lines, "\n")))
    decreases |lines|
  {
    var l := lines[0];
    assert BodyLine(l);
    var s1 := ReadLine(s, l, now);
    assert s1 == s.(body := Collect(s.body, l));
    if |lines| == 1 {
      ReadOne(s, l, now);
    } else {
      var rest := lines[1..];
      assert ReadLines(s, lines, now) == ReadLines(s1, rest, now);
      CollectJoin(s1, rest, now);
      var j := Join(rest, "\n");
      assert Join(lines, "\n") == l + "\n" + j;
      if s.body == "" {
        assert Collect(s1.body, j) == l + "\n" + j;
      } else {
        assert Collect(s1.body, j) == s.body + "\n" + l + "\n" + j;
        assert Collect(s.body, l + "\n" + j) == s.body + "\n" + (l + "\n" + j);
      }
    }
  }

  /** Body text is printed as it is. */
  lemma BodyOfText(body: string)
    requires BodyText(body)
    ensures Body(Some(body)) == body
  {
    var first := Pieces(body, '\n')[0];
    assert BodyLine(first);
    TrimOfTrimmed(first);
    assert first == body[..|first|];
    TrimVisible(body, 0);
  }

  /** Splitting single lines followed by text whose last piece is not empty. */
  lemma SplitLinesThen(lines: seq<string>, text: string)
    requires NoLineFeeds(lines) && lines != []
    requires Pieces(text, '\n')[|Pieces(text, '\n')| - 1] != ""
    ensures JavaSplit(LinesText(lines) + text, '\n') == lines + Pieces(text, '\n')
  {
    var tail := Pieces(text, '\n');
    PiecesOfLines(lines, text);
    LineFeedIn(lines, text);
    DropTrailingEmptyNoop(lines, tail);
  }

  lemma FileContentOf(event: TransactionWithMt103Event, result: FraudDetectionResult, g: LocalDateTime, body: string)
    requires Body(event.mt103Content) == body
    ensures FileContent(event, result, g) == LinesText(HeaderLines(event, result, g)) + body
  {
  }

  /** The reader's split of a report with body text: the header's lines, then the body's. */
  lemma ContentFileLines(event: TransactionWithMt103Event, result: FraudDetectionResult, g: LocalDateTime, body: string)
    requires SingleLineValues(event.transaction)
    requires event.mt103Content == Some(body) && BodyText(body)
    ensures JavaSplit(FileContent(event, result, g), '\n') == HeaderLines(event, result, g) + Pieces(body, '\n')
  {
    BodyOfText(body);
    FileContentOf(event, result, g, body);
    HeaderLinesNoLineFeed(event, result, g);
    assert BodyLine(Pieces(body, '\n')[|Pieces(body, '\n')| - 1]);
    SplitLinesThen(HeaderLines(event, result, g), body);
  }

  /** The header, then body text: what the top lines set, inside the MT103 section, with
      the body collected as it is. */
  lemma ReadContentLines(event: TransactionWithMt103Event, result: FraudDetectionResult, g: LocalDateTime,
                         body: string, now: LocalDateTime)
    requires BodyText(body)
    ensures ReadLines(Start, HeaderLines(event, result, g) + Pieces(body, '\n'), now)
         == ReadLines(Start, TopLines(event, result, g), now).(inSection := true, body := body)
  {
    var top, section, lines := TopLines(event, result, g), AlertSection(result.alerts), Pieces(body, '\n');
    var opening: seq<string> := [Separator, ""];
    assert HeaderLines(event, result, g) == top + section + opening;
    Regroup(top, section, opening, lines);
    ReadLinesAppend(Start, top, section + (opening + lines), now);
    ReadTopLines(event, result, g, now);
    ReadAfterTop(ReadLines(Start, top, now), result.alerts, body, now);
  }

  lemma Regroup(a: seq<string>, b: seq<string>, c: seq<string>, d: seq<string>)
    ensures a + b + c + d == a + (b + (c + d))
  {
  }

  /** After the top lines, with nothing collected yet: the alert section is passed over,
      the separator opens the MT103 section and the body's lines are collected as they are. */
  lemma ReadAfterTop(s: ReadState, alerts: Option<seq<FraudAlert>>, body: string, now: LocalDateTime)
    requires BodyText(body) && s.body == ""
    ensures ReadLines(s, AlertSection(alerts) + ([Separator, ""] + Pieces(body, '\n')), now)
         == s.(inSection := true, body := body)
  {
    var section, lines := AlertSection(alerts), Pieces(body, '\n');
    var opening: seq<string> := [Separator, ""];
    ReadLinesAppend(s, section, opening + lines, now);
    AlertSectionIgnored(alerts);
    IgnoredLines(s, section, now);
    ReadLinesAppend(s, opening, lines, now);
    ReadOpening(s, now);
    CollectJoin(s.(inSection := true), lines, now);
    JoinPieces(body);
  }

  lemma ReadOpening(s: ReadState, now: LocalDateTime)
    ensures ReadLines(s, [Separator, ""], now) == s.(inSection := true)
  {
    TrimOfTrimmed(Separator);
    TrimOfTrimmed("");
    assert [Separator, ""][1..] == [""];
    ReadOne(s.(inSection := true), "", now);
  }

  /** A report written for an event with MT103 text, read back: the text comes back as it
      was, and the transaction is what the header carries, completed from the MT103 fields
      and then the defaults. */
  lemma ContentRoundTrip(event: TransactionWithMt103Event, result: FraudDetectionResult, g: LocalDateTime,
                         fileName: string, now: LocalDateTime, millis: int, draw: nat, body: string)
    requires draw < |TrxStatus|
    requires SingleLineValues(event.transaction)
    requires event.mt103Content == Some(body) && BodyText(body)
    requires !Contains(body, "No MT103 content available")
    ensures var r := ReadFile(FileContent(event, result, g), fileName, now, millis, draw);
      r.mt103Content == Some(body)
      && r.transaction == WithDefaults(ApplyFields(body, HeaderFields(event.transaction, g, now)), fileName, now, millis, draw)
  {
    ContentFileLines(event, result, g, body);
    ReadContentLines(event, result, g, body, now);
    ReadTopLines(event, result, g, now);
    GeneratedTextTrimmed(g);
    assert body != "" by {
      assert BodyLine(Pieces(body, '\n')[0]);
    }
  }
}
