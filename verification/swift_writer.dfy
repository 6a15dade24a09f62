/**
 * The alert service's report file writer: each processed MT103 event is written to a
 * `.swift` file under "fraudulent" or "normal", as a block of "//" comment lines (the
 * transaction's identifier, amount, banks and the detection verdict, then one line per
 * alert) closed by a separator line, followed by the MT103 text itself. The clock reading
 * and the configured directory and extension are parameters; writing the file is not
 * modelled.
 */
module SwiftWriter {
  import opened Wrappers
  import opened JavaString
  import opened BigDec
  import opened Clock
  import opened AlertModel

  const Title: string := "// SWIFT MT103 Message"
  const Separator: string := "//" + "====================================="
  const NoContent: string := "// No MT103 content available"

  /** The labels of the header lines the reader looks for; each is followed by a blank and
      the value. */
  const GeneratedLabel: string := "// Generated at:"
  const IdLabel: string := "// Transaction ID:"
  const AmountLabel: string := "// Amount:"
  const FromLabel: string := "// From:"
  const ToLabel: string := "// To:"

  /** The configured defaults of swift.output.directory and swift.output.file-extension. */
  const DefaultOutputDirectory: string := "src/main/resources/swift-files"
  const DefaultFileExtension: string := ".swift"

  // ---------------------------------------------------------------------------
  // Lines of text
  // ---------------------------------------------------------------------------

  /** The lines, each followed by a line feed. */
  function LinesText(lines: seq<string>): string {
    if lines == [] then "" else LinesText(lines[..|lines| - 1]) + lines[|lines| - 1] + "\n"
  }

  /** Appending a line's text to the text of the lines before it. */
  lemma LineStep(start: string, lines: seq<string>, line: string)
    ensures start + LinesText(lines) + (line + "\n") == start + LinesText(lines + [line])
  {
    assert (lines + [line])[..|lines|] == lines;
    assert LinesText(lines + [line]) == LinesText(lines) + line + "\n";
    assert LinesText(lines) + line + "\n" == LinesText(lines) + (line + "\n");
  }

  /** Splitting the text of line-feed-free lines, followed by anything, on line feeds gives
      back those lines, then the pieces of what follows. */
  lemma {:induction false} PiecesOfLines(lines: seq<string>, rest: string)
    requires forall k :: 0 <= k < |lines| ==> '\n' !in lines[k]
    ensures Pieces(LinesText(lines) + rest, '\n') == lines + Pieces(rest, '\n')
  {
    if lines != [] {
      var init, last := lines[..|lines| - 1], lines[|lines| - 1];
      var tail := last + ['\n'] + rest;
      calc {
        Pieces(LinesText(lines) + rest, '\n');
        { assert LinesText(lines) + rest == LinesText(init) + tail; }
        Pieces(LinesText(init) + tail, '\n');
        { PiecesOfLines(init, tail); }
        init + Pieces(tail, '\n');
        { PiecesConcat(last, rest, '\n'); }
        init + ([last] + Pieces(rest, '\n'));
        { assert init + [last] == lines; }
        lines + Pieces(rest, '\n');
      }
    } else {
      assert LinesText(lines) + rest == rest;
    }
  }

  // ---------------------------------------------------------------------------
  // The file's content
  // ---------------------------------------------------------------------------

  /** StringBuilder.append of a nullable BigDecimal: its toString, or "null". */
  function AmountText(amount: Option<BigDecimal>): string {
    match amount
    case Some(a) => ToString(a)
    case None => "null"
  }

  function FraudStatus(result: FraudDetectionResult): string {
    if result.isFraudulent then "FRAUDULENT" else "NORMAL"
  }

  function AlertLine(alert: FraudAlert): string {
    "//   - " + FraudTypeDescription(alert.fraudType)
  }

  function AlertLines(alerts: seq<FraudAlert>): (r: seq<string>)
    ensures |r| == |alerts|
    ensures forall j :: 0 <= j < |alerts| ==> r[j] == AlertLine(alerts[j])
  {
    seq(|alerts|, j requires 0 <= j < |alerts| => AlertLine(alerts[j]))
  }

  /** The line that opens the alert section. */
  function CountLine(n: int): string {
    "// Fraud Alerts: " + IntToString(n)
  }

  /** The alert section: present exactly when the alert list is neither null nor empty, a
      count line, then one line per alert in the list's order. */
  function AlertSection(alerts: Option<seq<FraudAlert>>): (r: seq<string>)
    ensures alerts.None? || alerts.value == [] ==> r == []
    ensures alerts.Some? && alerts.value != [] ==>
      |r| == |alerts.value| + 1 && r[0] == CountLine(|alerts.value|)
      && forall j :: 0 <= j < |alerts.value| ==> r[j + 1] == AlertLine(alerts.value[j])
  {
    match alerts
    case None => []
    case Some(list) =>
      if list == [] then []
      else
        var lines := AlertLines(list);
        var r := [CountLine(|list|)] + lines;
        assert forall j :: 0 <= j < |list| ==> r[j + 1] == lines[j];
        r
  }

  /** The nine lines every header starts with. */
  function TopLines(event: TransactionWithMt103Event, result: FraudDetectionResult, generatedAt: LocalDateTime): seq<string> {
    var t := event.transaction;
    [Title]
    + [GeneratedLabel + " " + DateTimeToString(generatedAt)]
    + [IdLabel + " " + Str(t.transactionId)]
    + [AmountLabel + " " + (AmountText(t.amount) + " " + Str(t.currency))]
    + [FromLabel + " " + Str(t.fromBankName)]
    + [ToLabel + " " + Str(t.toBankName)]
    + ["// FRAUD STATUS: " + FraudStatus(result)]
    + ["// Risk Score: " + (IntToString(result.riskScore) + "/100")]
    + ["// Risk Level: " + RiskLevelName(result.riskLevel)]
  }

  /** appendHeader's lines: the top lines, the alert section, the separator and a blank line. */
  function HeaderLines(event: TransactionWithMt103Event, result: FraudDetectionResult, generatedAt: LocalDateTime): seq<string> {
    TopLines(event, result, generatedAt) + AlertSection(result.alerts) + [Separator, ""]
  }

  /** appendMT103Content: the MT103 text unchanged, or a placeholder when it is null or blank.
      Either way the file's body is never blank. */
  function Body(mt103Content: Option<string>): (r: string)
    ensures mt103Content.Some? && Trim(mt103Content.value) != "" ==> r == mt103Content.value
    ensures mt103Content.None? || Trim(mt103Content.value) == "" ==> r == NoContent
    ensures Trim(r) != ""
  {
    TrimOfTrimmed(NoContent);
    if mt103Content.Some? && Trim(mt103Content.value) != "" then mt103Content.value else NoContent
  }

  /** generateFileContent. */
  function FileContent(event: TransactionWithMt103Event, result: FraudDetectionResult, generatedAt: LocalDateTime): string {
    LinesText(HeaderLines(event, result, generatedAt)) + Body(event.mt103Content)
  }

  /** `content.append(prefix).append(value).append("\n")`. */
  method AppendLine(content: StringBuilder, prefix: string, value: string)
    modifies content
    ensures content.text == old(content.text) + (prefix + value + "\n")
  {
    content.Append(prefix);
    content.Append(value);
    content.Append("\n");
  }

  /** The first nine lines of appendHeader. */
  method AppendTopLines(content: StringBuilder, event: TransactionWithMt103Event, result: FraudDetectionResult,
                        generatedAt: LocalDateTime)
    modifies content
    ensures content.text == old(content.text) + LinesText(TopLines(event, result, generatedAt))
  {
    var t := event.transaction;
    ghost var start := content.text;
    content.Append("// SWIFT MT103 Message\n");
    assert content.text == start + LinesText([]) + (Title + "\n");
    LineStep(start, [], Title);
    assert [] + [Title] == [Title];
    ghost var lines: seq<string> := [Title];
    assert content.text == start + LinesText(lines);
    AppendLine(content, GeneratedLabel + " ", DateTimeToString(generatedAt));
    LineStep(start, lines, GeneratedLabel + " " + DateTimeToString(generatedAt));
    lines := lines + [GeneratedLabel + " " + DateTimeToString(generatedAt)];
    assert content.text == start + LinesText(lines);
    AppendLine(content, IdLabel + " ", Str(t.transactionId));
    LineStep(start, lines, IdLabel + " " + Str(t.transactionId));
    lines := lines + [IdLabel + " " + Str(t.transactionId)];
    assert content.text == start + LinesText(lines);
    AppendLine(content, AmountLabel + " ", AmountText(t.amount) + " " + Str(t.currency));
    LineStep(start, lines, AmountLabel + " " + (AmountText(t.amount) + " " + Str(t.currency)));
    lines := lines + [AmountLabel + " " + (AmountText(t.amount) + " " + Str(t.currency))];
    assert content.text == start + LinesText(lines);
    AppendLine(content, FromLabel + " ", Str(t.fromBankName));
    LineStep(start, lines, FromLabel + " " + Str(t.fromBankName));
    lines := lines + [FromLabel + " " + Str(t.fromBankName)];
    assert content.text == start + LinesText(lines);
    AppendLine(content, ToLabel + " ", Str(t.toBankName));
    LineStep(start, lines, ToLabel + " " + Str(t.toBankName));
    lines := lines + [ToLabel + " " + Str(t.toBankName)];
    assert content.text == start + LinesText(lines);
    AppendLine(content, "// FRAUD STATUS: ", if result.isFraudulent then "FRAUDULENT" else "NORMAL");
    LineStep(start, lines, "// FRAUD STATUS: " + FraudStatus(result));
    lines := lines + ["// FRAUD STATUS: " + FraudStatus(result)];
    assert content.text == start + LinesText(lines);
    AppendLine(content, "// Risk Score: ", IntToString(result.riskScore) + "/100");
    LineStep(start, lines, "// Risk Score: " + (IntToString(result.riskScore) + "/100"));
    lines := lines + ["// Risk Score: " + (IntToString(result.riskScore) + "/100")];
    assert content.text == start + LinesText(lines);
    AppendLine(content, "// Risk Level: ", RiskLevelName(result.riskLevel));
    LineStep(start, lines, "// Risk Level: " + RiskLevelName(result.riskLevel));
    lines := lines + ["// Risk Level: " + RiskLevelName(result.riskLevel)];
    assert content.text == start + LinesText(lines);
  }

  /** One more alert line in the alert section. */
  lemma SectionStep(start: string, head: string, alerts: seq<FraudAlert>, i: nat)
    requires i < |alerts|
    ensures start + LinesText([head] + AlertLines(alerts[..i])) + (AlertLine(alerts[i]) + "\n")
         == start + LinesText([head] + AlertLines(alerts[..i + 1]))
  {
    assert AlertLines(alerts[..i + 1]) == AlertLines(alerts[..i]) + [AlertLine(alerts[i])];
    assert [head] + AlertLines(alerts[..i + 1]) == ([head] + AlertLines(alerts[..i])) + [AlertLine(alerts[i])];
    LineStep(start, [head] + AlertLines(alerts[..i]), AlertLine(alerts[i]));
  }

  /** The alert section of appendHeader: a count line, then a line per alert. */
  method AppendAlertSection(content: StringBuilder, alerts: Option<seq<FraudAlert>>)
    modifies content
    ensures content.text == old(content.text) + LinesText(AlertSection(alerts))
  {
    ghost var start := content.text;
    if alerts.Some? && alerts.value != [] {
      var list := alerts.value;
      var head := CountLine(|list|);
      AppendLine(content, "// Fraud Alerts: ", IntToString(|list|));
      LineStep(start, [], head);
      assert [head] + AlertLines(list[..0]) == [] + [head];
      var i := 0;
      while i < |list|
        invariant 0 <= i <= |list|
        invariant content.text == start + LinesText([head] + AlertLines(list[..i]))
      {
        AppendLine(content, "//   - ", FraudTypeDescription(list[i].fraudType));
        SectionStep(start, head, list, i);
        i := i + 1;
      }
      assert list[..i] == list;
    } else {
      assert content.text == start + LinesText([]);
    }
  }

  lemma {:induction false} LinesTextAppend(a: seq<string>, b: seq<string>)
    ensures LinesText(a + b) == LinesText(a) + LinesText(b)
  {
    if b == [] {
      assert a + b == a;
    } else {
      var init, last := b[..|b| - 1], b[|b| - 1];
      assert (a + b)[..|a + b| - 1] == a + init;
      LinesTextAppend(a, init);
    }
  }

  /** A line followed by a blank line. */
  lemma LineThenBlank(line: string)
    ensures LinesText([line, ""]) == line + "\n\n"
  {
    assert [line, ""][..1] == [line];
    assert [line][..0] == [];
    assert LinesText([line]) == line + "\n";
    assert LinesText([line, ""]) == line + "\n" + "" + "\n";
  }

  /** The header's text: the top lines', the alert section's, then a closing line and a
      blank line. */
  lemma HeaderText(top: seq<string>, section: seq<string>, closing: string)
    ensures LinesText(top + section + [closing, ""]) == LinesText(top) + LinesText(section) + (closing + "\n\n")
  {
    LinesTextAppend(top, section);
    LinesTextAppend(top + section, [closing, ""]);
    LineThenBlank(closing);
  }

  lemma HeaderTextAfter(start: string, top: seq<string>, section: seq<string>, closing: string)
    ensures start + LinesText(top) + LinesText(section) + (closing + "\n\n")
         == start + LinesText(top + section + [closing, ""])
  {
    var a, b, c := LinesText(top), LinesText(section), closing + "\n\n";
    HeaderText(top, section, closing);
    assert start + a + b + c == start + (a + b + c);
  }

  /** appendHeader: the top lines, the alert section, then the separator and a blank line. */
  method AppendHeader(content: StringBuilder, event: TransactionWithMt103Event, result: FraudDetectionResult,
                      generatedAt: LocalDateTime)
    modifies content
    ensures content.text == old(content.text) + LinesText(HeaderLines(event, result, generatedAt))
  {
    ghost var start := content.text;
    AppendTopLines(content, event, result, generatedAt);
    AppendAlertSection(content, result.alerts);
    content.Append(Separator + "\n\n");
    HeaderTextAfter(start, TopLines(event, result, generatedAt), AlertSection(result.alerts), Separator);
  }

  /** appendMT103Content. */
  method AppendMt103Content(content: StringBuilder, event: TransactionWithMt103Event)
    modifies content
    ensures content.text == old(content.text) + Body(event.mt103Content)
  {
    if event.mt103Content.Some? && Trim(event.mt103Content.value) != "" {
      content.Append(event.mt103Content.value);
    } else {
      content.Append("// No MT103 content available");
    }
  }

  /** generateFileContent: the header, then the MT103 text or its placeholder. */
  method GenerateFileContent(event: TransactionWithMt103Event, result: FraudDetectionResult, generatedAt: LocalDateTime)
    returns (text: string)
    ensures text == FileContent(event, result, generatedAt)
  {
    var content := new StringBuilder();
    AppendHeader(content, event, result, generatedAt);
    assert content.text == LinesText(HeaderLines(event, result, generatedAt));
    AppendMt103Content(content, event);
    text := content.text;
  }

  // ---------------------------------------------------------------------------
  // The file's place
  // ---------------------------------------------------------------------------

  datatype SwiftPath = SwiftPath(directory: string, subDirectory: string, fileName: string)

  /** DateTimeFormatter "yyyy": the year of the era, at least four digits, with a '+' when
      it needs more. */
  function YearText(year: int): string {
    var yearOfEra := if year > 0 then year else 1 - year;
    if yearOfEra > 9999 then "+" + NatToString(yearOfEra) else FormatZeroPadded(yearOfEra, 4)
  }

  /** DateTimeFormatter "yyyyMMdd_HHmmss". */
  function FileStamp(t: LocalDateTime): string {
    YearText(t.year) + FormatZeroPadded(t.month, 2) + FormatZeroPadded(t.day, 2) + "_"
    + FormatZeroPadded(t.hour, 2) + FormatZeroPadded(t.minute, 2) + FormatZeroPadded(t.second, 2)
  }

  /** createFilePath: `<directory>/<fraudulent|normal>/MT103_<id>_<stamp><extension>`. */
  function CreateFilePath(event: TransactionWithMt103Event, result: FraudDetectionResult, now: LocalDateTime,
                          outputDirectory: string, fileExtension: string): (r: SwiftPath)
    ensures r.directory == outputDirectory
    ensures r.subDirectory == "fraudulent" <==> result.isFraudulent
    ensures r.subDirectory == "normal" <==> !result.isFraudulent
    ensures StartsWith(r.fileName, "MT103_") && EndsWith(r.fileName, fileExtension)
  {
    var subDirectory := if result.isFraudulent then "fraudulent" else "normal";
    var fileName := "MT103_" + Str(event.transaction.transactionId) + "_" + FileStamp(now) + fileExtension;
    assert fileName[..6] == "MT103_";
    SwiftPath(outputDirectory, subDirectory, fileName)
  }
}
