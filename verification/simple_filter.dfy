/**
 * The simple transaction filter: it runs eight checks on an MT103 text in a fixed order and
 * reports the first failure only; no failure means the transaction is forwarded. The
 * filter counts what it processes, forwards and filters out.
 */
module SimpleTransactionFilter {
  import opened Wrappers
  import opened JavaString
  import opened Mt103Checks
  import Constants = Mt103Constants
  import Strict = Mt103FieldValidator
  import Formatter = Mt103Formatter

  const NullOrBlank: string := "Content is null or blank"
  const MandatoryFields: seq<string> := [":20:", ":23B:", ":32A:"]
  const RequiredHeaders: seq<string> := ["{1:", "{2:", "{3:"]
  const DoubleColons: string := "Invalid field structure: double colons found"
  const SemicolonInTag: string := "Invalid field structure: semicolon" + " instead of colon in field tag"
  const MissingColonInTag: string := "Invalid field structure: missing" + " colon in field tag"

  // ---------------------------------------------------------------------------
  // Field structure
  // ---------------------------------------------------------------------------

  /** `^[0-9]{2}[A-Z]?;.*` on a trimmed line. */
  predicate SemicolonTagLine(line: string) {
    |line| >= 3 && IsDigit(line[0]) && IsDigit(line[1])
    && ((line[2] == ';' && NoLineTerminator(line[3..]))
        || (|line| >= 4 && IsUpper(line[2]) && line[3] == ';' && NoLineTerminator(line[4..])))
  }

  /** `^[0-9]{2}[A-Z]?[^:].*` on a trimmed line: `[^:]` also matches a line terminator. */
  predicate MissingColonTagLine(line: string) {
    |line| >= 3 && IsDigit(line[0]) && IsDigit(line[1])
    && ((line[2] != ':' && NoLineTerminator(line[3..]))
        || (|line| >= 4 && IsUpper(line[2]) && line[3] != ':' && NoLineTerminator(line[4..])))
  }

  /** The failure one line of the message gives, once trimmed. */
  function LineFailure(line: string): Option<string> {
    var trimmed := Trim(line);
    if SemicolonTagLine(trimmed) then Some(SemicolonInTag)
    else if MissingColonTagLine(trimmed) && |trimmed| > 3 then Some(MissingColonInTag)
    else None
  }

  /** checkFieldStructure: a double colon anywhere, else the first line that fails. */
  function FieldStructureFailure(content: string): Option<string> {
    if Contains(content, "::") then Some(DoubleColons)
    else FirstFailure(JavaSplit(content, '\n'), LineFailure)
  }

  /** checkFieldStructure: the line loop returns at the first failing line. */
  method CheckFieldStructure(content: string) returns (r: Option<string>)
    ensures r == FieldStructureFailure(content)
  {
    if Contains(content, "::") {
      return Some(DoubleColons);
    }
    var lines := JavaSplit(content, '\n');
    for i := 0 to |lines|
      invariant FirstFailure(lines, LineFailure) == FirstFailure(lines[i..], LineFailure)
    {
      assert lines[i..][1..] == lines[i + 1..];
      var line := Trim(lines[i]);
      if SemicolonTagLine(line) {
        return Some(SemicolonInTag);
      }
      if MissingColonTagLine(line) && |line| > 3 {
        return Some(MissingColonInTag);
      }
    }
    return None;
  }

  /** A trimmed line of three digits, a space and more text without line terminators is
      taken for a field tag without its colon. */
  lemma StreetLineLooksLikeTag(line: string)
    requires |line| > 4 && IsDigit(line[0]) && IsDigit(line[1]) && IsDigit(line[2]) && line[3] == ' '
    requires line[|line| - 1] > ' ' && NoLineTerminator(line)
    ensures LineFailure(line) == Some(MissingColonInTag)
  {
    TrimOfTrimmed(line);
    assert !SemicolonTagLine(line);
    assert NoLineTerminator(line[3..]) by {
      forall i | 0 <= i < |line[3..]| ensures !IsLineTerminator(line[3..][i]) {
        assert line[3..][i] == line[i + 3];
      }
    }
  }

  /** Each street line of the generator's address templates starts with three digits and a
      space, so the missing-colon pattern takes it for a field tag. */
  lemma AddressLinesLookLikeTags(k: nat)
    requires k < |Constants.AddressTemplates|
    ensures LineFailure(Constants.AddressTemplates[k]) == Some(MissingColonInTag)
  {
    if k < 3 {
      FirstAddressLines(k);
    } else {
      LastAddressLines(k);
    }
  }

  lemma FirstAddressLines(k: nat)
    requires k < 3
    ensures LineFailure(Constants.AddressTemplates[k]) == Some(MissingColonInTag)
  {
    if k == 0 {
      StreetLine("123 Main Street");
    } else if k == 1 {
      StreetLine("456 Business Ave");
    } else {
      StreetLine("789 Commercial Blvd");
    }
  }

  lemma LastAddressLines(k: nat)
    requires 3 <= k < 6
    ensures LineFailure(Constants.AddressTemplates[k]) == Some(MissingColonInTag)
  {
    if k == 3 {
      StreetLine("321 Financial District");
    } else if k == 4 {
      StreetLine("654 Banking Center");
    } else {
      StreetLine("987 Trade Plaza");
    }
  }

  /** A line that opens with a capital letter is no field tag to either test of the line check. */
  lemma LetterLinePasses(line: string)
    requires |line| > 0 && 'A' <= line[0] <= 'Z'
    ensures LineFailure(line) == None
  {
    assert TrimStart(line) == line;
    var trimmed := Trim(line);
    assert trimmed == line[..|trimmed|];
    assert trimmed[0] == line[0];
  }

  /** The last line the generator's formatter writes into fields 50K and 59, the city and the
      country, always passes the line check, unlike the street line above it. */
  lemma CityLinePasses(countryCode: Option<string>)
    ensures LineFailure(Formatter.GenerateCityCountry(countryCode)) == None
  {
    LetterLinePasses(Formatter.GenerateCityCountry(countryCode));
  }

  /** StreetLineLooksLikeTag for a line of letters and blanks after the number. */
  lemma StreetLine(line: string)
    requires |line| > 4 && IsDigit(line[0]) && IsDigit(line[1]) && IsDigit(line[2]) && line[3] == ' '
    requires line[|line| - 1] > ' ' && forall i :: 0 <= i < |line| ==> ' ' <= line[i] <= 'z'
    ensures LineFailure(line) == Some(MissingColonInTag)
  {
    StreetLineLooksLikeTag(line);
  }

  /** A message with one of those address lines never passes the field structure check. */
  lemma AddressLineRejected(content: string, i: nat, k: nat)
    requires i < |JavaSplit(content, '\n')| && k < |Constants.AddressTemplates|
    requires JavaSplit(content, '\n')[i] == Constants.AddressTemplates[k]
    ensures FieldStructureFailure(content).Some?
  {
    AddressLinesLookLikeTags(k);
  }

  /** The lines that open fields 50K and 59 in the filter's own example of a valid
      message (an account line, a bank code and a street) each fail the check as written. */
  lemma ContinuationLinesRejected()
    ensures LineFailure("10040000") == Some(MissingColonInTag)
    ensures LineFailure("02008") == Some(MissingColonInTag)
    ensures LineFailure("456 Business Ave") == Some(MissingColonInTag)
  {
    NumberLine("10040000");
    NumberLine("02008");
    StreetLine("456 Business Ave");
  }

  lemma NumberLine(line: string)
    requires |line| > 3 && forall i :: 0 <= i < |line| ==> IsDigit(line[i])
    ensures LineFailure(line) == Some(MissingColonInTag)
  {
    TrimOfTrimmed(line);
    assert NoLineTerminator(line[3..]) by {
      forall i | 0 <= i < |line[3..]| ensures !IsLineTerminator(line[3..][i]) {
        assert line[3..][i] == line[i + 3];
      }
    }
  }

  /** The missing-colon test on the lines that open a field only: a trimmed line of ':', two
      digits and an optional letter is a tag, and the character after the tag must be ':'. */
  predicate TagMissingColon(line: string) {
    |line| >= 4 && line[0] == ':' && IsDigit(line[1]) && IsDigit(line[2])
    && (if IsUpper(line[3]) then |line| == 4 || line[4] != ':' else line[3] != ':')
  }

  /** The other missing colon: a trimmed line of two digits and an optional letter closed
      by ':' is a tag that lost its opening colon. */
  predicate TagMissingFirstColon(line: string) {
    |line| >= 3 && IsDigit(line[0]) && IsDigit(line[1])
    && (line[2] == ':' || (|line| >= 4 && IsUpper(line[2]) && line[3] == ':'))
  }

  /** The line check with the missing-colon test confined to field tags: a tag whose closing
      colon is missing or whose opening colon is missing. */
  function CorrectedLineFailure(line: string): Option<string> {
    var trimmed := Trim(line);
    if SemicolonTagLine(trimmed) then Some(SemicolonInTag)
    else if TagMissingColon(trimmed) || TagMissingFirstColon(trimmed) then Some(MissingColonInTag)
    else None
  }

  /** checkFieldStructure with the corrected line check. */
  function CorrectedFieldStructureFailure(content: string): (r: Option<string>)
    ensures r.None? <==>
      !Contains(content, "::") && forall k :: 0 <= k < |JavaSplit(content, '\n')| ==> CorrectedLineFailure(JavaSplit(content, '\n')[k]).None?
  {
    if Contains(content, "::") then Some(DoubleColons)
    else FirstFailure(JavaSplit(content, '\n'), CorrectedLineFailure)
  }

  /** A line that does not open a field, holds no ';' and no ':' among its first four
      characters (an account number, a bank code, a street or a town) passes the corrected
      check, whatever digits it starts with. */
  lemma ContinuationLinePasses(line: string)
    requires line != [] && line[0] > ' ' && line[|line| - 1] > ' '
    requires forall i :: 0 <= i < |line| ==> line[i] != ';'
    requires forall i :: 0 <= i < |line| && i < 4 ==> line[i] != ':'
    ensures CorrectedLineFailure(line) == None
  {
    TrimOfTrimmed(line);
  }

  /** The corrected check accepts the continuation lines the check as written rejects. */
  lemma ContinuationLinesAccepted()
    ensures CorrectedLineFailure("10040000") == None
    ensures CorrectedLineFailure("02008") == None
    ensures CorrectedLineFailure("456 Business Ave") == None
  {
    ContinuationLinePasses("10040000");
    ContinuationLinePasses("02008");
    ContinuationLinePasses("456 Business Ave");
  }

  /** A tag of two digits and an optional letter, closed by ':', passes the corrected
      check; the same tag followed by anything else fails it. */
  lemma CorrectedTagLines(tag: string, c: char, rest: string)
    requires (|tag| == 2 || (|tag| == 3 && IsUpper(tag[2]))) && IsDigit(tag[0]) && IsDigit(tag[1])
    requires c > ' ' && (|tag| == 2 ==> !IsUpper(c))
    requires rest == [] || rest[|rest| - 1] > ' '
    ensures c == ':' ==> CorrectedLineFailure(":" + tag + [c] + rest) == None
    ensures c != ':' ==> CorrectedLineFailure(":" + tag + [c] + rest) == Some(MissingColonInTag)
  {
    var line := ":" + tag + [c] + rest;
    assert line[0] == ':' && line[1] == tag[0] && line[2] == tag[1];
    assert line[1 + |tag|] == c;
    if |tag| == 3 {
      assert line[3] == tag[2];
    }
    TrimOfTrimmed(line);
  }

  /** The tag lines the generator's message corruptor writes with a colon missing (the
      closing colon of 20 and of 59, the opening colon of 20 and of 50K) all fail the
      corrected check, for any reference without blanks or colons and any account. */
  lemma CorruptedTagLinesRejected(ref: string, account: string)
    requires ref != [] && forall i :: 0 <= i < |ref| ==> ref[i] > ' ' && ref[i] != ':'
    requires account == [] || account[|account| - 1] > ' '
    ensures CorrectedLineFailure(":20" + ref) == Some(MissingColonInTag)
    ensures CorrectedLineFailure("20:" + ref) == Some(MissingColonInTag)
    ensures CorrectedLineFailure("50K:/" + account) == Some(MissingColonInTag)
    ensures CorrectedLineFailure(":59/" + account) == Some(MissingColonInTag)
  {
    ClosingColonMissing(ref);
    OpeningColonMissing(ref);
    AccountTagRejected("50K:/", account);
    AccountTagRejected(":59/", account);
  }

  lemma ClosingColonMissing(ref: string)
    requires ref != [] && forall i :: 0 <= i < |ref| ==> ref[i] > ' ' && ref[i] != ':'
    ensures CorrectedLineFailure(":20" + ref) == Some(MissingColonInTag)
  {
    var line := ":20" + ref;
    assert line[..3] == ":20" && line[3] == ref[0] && line[|line| - 1] == ref[|ref| - 1];
    assert |ref| > 1 ==> line[4] == ref[1];
    TrimOfTrimmed(line);
  }

  lemma OpeningColonMissing(ref: string)
    requires ref != [] && ref[|ref| - 1] > ' '
    ensures CorrectedLineFailure("20:" + ref) == Some(MissingColonInTag)
  {
    var line := "20:" + ref;
    assert line[..3] == "20:" && line[|line| - 1] == ref[|ref| - 1];
    TrimOfTrimmed(line);
  }

  /** The two account lines: a tag missing one of its colons, then the account. */
  lemma AccountTagRejected(tag: string, account: string)
    requires tag == "50K:/" || tag == ":59/"
    requires account == [] || account[|account| - 1] > ' '
    ensures CorrectedLineFailure(tag + account) == Some(MissingColonInTag)
  {
    var line := tag + account;
    assert line[..|tag|] == tag && line[|line| - 1] > ' ';
    TrimOfTrimmed(line);
  }

  // ---------------------------------------------------------------------------
  // Completeness and characters
  // ---------------------------------------------------------------------------

  const MissingTrailer: string := "Incomplete message: missing trailer block {5:"
  const MissingClosingBrace: string := "Incomplete message: does not end" + " with closing brace"

  /** checkMessageCompleteness: the trailer block first, then the closing brace. */
  function CompletenessFailure(content: string): (r: Option<string>)
    ensures r.None? <==> Contains(content, "{5:") && EndsWith(Trim(content), "}")
  {
    if !Contains(content, "{5:") then Some(MissingTrailer)
    else if !EndsWith(Trim(content), "}") then Some(MissingClosingBrace)
    else None
  }

  function ControlCharFailure(i: nat, c: char): string {
    "Invalid control character found: ASCII code " + IntToString(c as int) + " at position " + IntToString(i)
  }

  /** The first control character at or after `i`, reported with its code and position. */
  function FirstControlChar(s: string, i: nat): (r: Option<string>)
    requires i <= |s|
    ensures r.None? <==> forall j :: i <= j < |s| ==> !IsControlChar(s[j])
    ensures r.Some? ==> exists j :: i <= j < |s| && IsControlChar(s[j]) && r == Some(ControlCharFailure(j, s[j]))
    decreases |s| - i
  {
    if i == |s| then None
    else if IsControlChar(s[i]) then Some(ControlCharFailure(i, s[i]))
    else FirstControlChar(s, i + 1)
  }

  /** checkInvalidCharacters: a scan that returns at the first control character. */
  method CheckInvalidCharacters(content: string) returns (r: Option<string>)
    ensures r == FirstControlChar(content, 0)
  {
    for i := 0 to |content|
      invariant FirstControlChar(content, 0) == FirstControlChar(content, i)
    {
      var c := content[i];
      if c as int < 32 && c != '\n' && c != '\r' && c != '\t' {
        return Some(ControlCharFailure(i, c));
      }
    }
    return None;
  }

  // ---------------------------------------------------------------------------
  // BIC codes
  // ---------------------------------------------------------------------------

  const BicFields: seq<string> := [":52A:", ":57A:", ":59:"]

  /** validateSingleBIC: too short, too long, a leading digit, then the pattern. */
  function SingleBicFailure(bic: string): (r: Option<string>)
    ensures r.None? <==> MatchesBicPattern(bic)
    ensures |bic| < 8 ==> r == Some("BIC too short (minimum 8 characters): " + bic)
    ensures |bic| > 11 ==> r == Some("BIC too long (maximum 11 characters): " + bic)
  {
    if |bic| < 8 then Some("BIC too short (minimum 8 characters): " + bic)
    else if |bic| > 11 then Some("BIC too long (maximum 11 characters): " + bic)
    else if IsDigit(bic[0]) then Some("BIC cannot start with a digit: " + bic)
    else if !MatchesBicPattern(bic) then Some("BIC format invalid: " + bic)
    else None
  }

  /** The text after the first occurrence of `field`, cut in front of the first "\n:" unless
      that comes first; None when the field does not occur. */
  function BicFieldBody(content: string, field: string): Option<string> {
    var index := IndexOf(content, field);
    if index == -1 then None
    else
      var fieldContent := content[index + |field|..];
      var nextFieldIndex := IndexOf(fieldContent, "\n:");
      Some(if nextFieldIndex > 0 then fieldContent[..nextFieldIndex] else fieldContent)
  }

  /** The BIC candidate of a field: its first word without the characters outside [A-Z0-9]. */
  function BicCandidate(body: string): string {
    Filter(FirstWord(Trim(body)), IsUpperAlnum)
  }

  /** The failure of one BIC field: its candidate is checked when it has 4 or more characters. */
  function BicFieldFailure(content: string, field: string): Option<string> {
    var body := BicFieldBody(content, field);
    if body.None? then None
    else
      var potentialBic := BicCandidate(body.value);
      if |potentialBic| >= 4 && SingleBicFailure(potentialBic).Some? then
        Some("Invalid BIC in field " + field + ": " + SingleBicFailure(potentialBic).value)
      else None
  }

  function BicFailure(content: string): Option<string> {
    FirstFailure(BicFields, field => BicFieldFailure(content, field))
  }

  /** validateBICCodes: fields 52A, 57A and 59 in turn, returning at the first failure. */
  method ValidateBicCodes(content: string) returns (r: Option<string>)
    ensures r == BicFailure(content)
  {
    for k := 0 to |BicFields|
      invariant BicFailure(content) == FirstFailure(BicFields[k..], field => BicFieldFailure(content, field))
    {
      assert BicFields[k..][1..] == BicFields[k + 1..];
      r := BicFieldFailure(content, BicFields[k]);
      if r.Some? {
        return r;
      }
    }
    return None;
  }

  /** The BIC check passes exactly when each of the three fields is missing, has a candidate
      shorter than 4 characters, or has one that matches the BIC pattern. */
  lemma BicFailureMeaning(content: string)
    ensures BicFailure(content).None? <==>
      forall k :: 0 <= k < 3 ==>
        var body := BicFieldBody(content, BicFields[k]);
        body.None? || |BicCandidate(body.value)| < 4 || MatchesBicPattern(BicCandidate(body.value))
  {
  }

  // ---------------------------------------------------------------------------
  // Field 32A: date and amount
  // ---------------------------------------------------------------------------

  /** The text after ":32A:", trimmed, then cut in front of the first "\n:" unless that
      comes first; None when the tag does not occur. */
  function Field32A(content: string): Option<string> {
    var index := IndexOf(content, ":32A:");
    if index == -1 then None
    else
      var fieldContent := Trim(content[index + 5..]);
      var nextFieldIndex := IndexOf(fieldContent, "\n:");
      Some(if nextFieldIndex > 0 then fieldContent[..nextFieldIndex] else fieldContent)
  }

  /** The checks on the six characters of a date: the pattern, then month 1..12 and day
      1..31, at most 29 in February and 30 in April, June, September and November. */
  function DateStrFailure(dateStr: string): Option<string> {
    if !MatchesDatePattern(dateStr) then Some("Invalid date format in :32A: (expected YYMMDD): " + dateStr)
    else
      var year, month, day := ParsePair(dateStr, 0), ParsePair(dateStr, 2), ParsePair(dateStr, 4);
      if year.None? || month.None? || day.None? then Some("Non-numeric characters in date: " + dateStr)
      else
        var m, d := month.value, day.value;
        if m < 1 || m > 12 then Some("Invalid month in date: " + IntToString(m))
        else if d < 1 || d > 31 then Some("Invalid day in date: " + IntToString(d))
        else if m == 2 && d > 29 then Some("Invalid day for February: " + IntToString(d))
        else if (m == 4 || m == 6 || m == 9 || m == 11) && d > 30 then
          Some("Invalid day for month " + IntToString(m) + ": " + IntToString(d))
        else None
  }

  /** The filter accepts the same dates as the strict validator's isValidDate. */
  lemma DateStrFailureStrict(dateStr: string)
    ensures DateStrFailure(dateStr).None? <==> MatchesDatePattern(dateStr) && Strict.IsValidDate(dateStr)
  {
  }

  /** A date passes exactly when it is six digits naming a day of a calendar that allows
      February 29th in every year. */
  lemma DateStrFailureMeaning(dateStr: string)
    ensures DateStrFailure(dateStr).None? <==>
      MatchesDatePattern(dateStr) && 1 <= Month(dateStr) <= 12 && 1 <= Day(dateStr) <= MaxDay(Month(dateStr))
  {
    DateStrFailureStrict(dateStr);
    if MatchesDatePattern(dateStr) {
      Strict.IsValidDateCalendar(dateStr);
    }
  }

  /** validateDateFormat: the field's first six characters must form a valid date. */
  function DateFailure(content: string): Option<string> {
    var field := Field32A(content);
    if field.None? then None
    else if |field.value| < 6 then Some("Date field too short in :32A:")
    else DateStrFailure(field.value[..6])
  }

  /** The date check passes exactly when 32A is missing or opens with a valid date. */
  lemma DateFailureMeaning(content: string)
    ensures DateFailure(content).None? <==>
      var field := Field32A(content);
      field.None? || (|field.value| >= 6 && MatchesDatePattern(field.value[..6])
        && 1 <= Month(field.value[..6]) <= 12 && 1 <= Day(field.value[..6]) <= MaxDay(Month(field.value[..6])))
  {
    var field := Field32A(content);
    if field.Some? && |field.value| >= 6 {
      DateStrFailureMeaning(field.value[..6]);
    }
  }

  predicate IsCleanAmountChar(c: char) { IsDigit(c) || c == ',' || c == '.' || c == '-' }

  predicate IsSeparator(c: char) { c == ',' || c == '.' }

  /** The number of ',' and '.' in a text. */
  function SeparatorCount(s: string): nat {
    if s == [] then 0 else (if IsSeparator(s[0]) then 1 else 0) + SeparatorCount(s[1..])
  }

  /** validateAmountFormat: what follows the ninth character of the field, trimmed, must be
      there; stripped to [0-9,.-] it must not be negative, must hold at most one separator
      and must match the amount pattern. */
  function AmountFailure(content: string): Option<string> {
    var field := Field32A(content);
    if field.None? then None
    else if |field.value| <= 9 then Some("Amount field too short in :32A:")
    else
      var amountPart := Trim(field.value[9..]);
      if amountPart == "" then Some("Empty amount in :32A:")
      else
        var cleanAmount := Filter(amountPart, IsCleanAmountChar);
        if StartsWith(cleanAmount, "-") then Some("Negative amount not allowed: " + amountPart)
        else if SeparatorCount(cleanAmount) > 1 then Some("Multiple decimal separators in amount: " + amountPart)
        else if !MatchesAmountPattern(cleanAmount) then Some("Invalid amount format: " + amountPart)
        else None
  }

  /** The cleaned amount of field 32A, when the field is long enough to have one. */
  function CleanAmount(content: string): Option<string> {
    var field := Field32A(content);
    if field.Some? && |field.value| > 9 then Some(Filter(Trim(field.value[9..]), IsCleanAmountChar)) else None
  }

  /** The amount check passes exactly when 32A is missing or its cleaned amount matches
      `\d+([,.]\d{1,2})?`: the sign and separator checks before the pattern reject nothing
      the pattern accepts. More than one separator is always a failure. */
  lemma AmountFailureMeaning(content: string)
    ensures AmountFailure(content).None? <==>
      Field32A(content).None? || (CleanAmount(content).Some? && MatchesAmountPattern(CleanAmount(content).value))
    ensures CleanAmount(content).Some? && SeparatorCount(CleanAmount(content).value) > 1 ==> AmountFailure(content).Some?
  {
    var field := Field32A(content);
    if field.Some? && |field.value| > 9 {
      var amountPart := Trim(field.value[9..]);
      var clean := Filter(amountPart, IsCleanAmountChar);
      if amountPart == "" {
        assert clean == "";
      }
      if MatchesAmountPattern(clean) {
        AmountPatternExcludes(clean);
        PatternSeparators(clean);
      }
    }
  }

  /** A text matching the amount pattern holds at most one separator. */
  lemma PatternSeparators(a: string)
    requires MatchesAmountPattern(a)
    ensures SeparatorCount(a) <= 1
  {
    var n := LeadingDigits(a);
    assert a == a[..n] + a[n..];
    SeparatorCountAppend(a[..n], a[n..]);
    NoSeparatorInDigits(a[..n]);
    if n < |a| {
      assert a[n..] == [a[n]] + a[n + 1..];
      SeparatorCountAppend([a[n]], a[n + 1..]);
      NoSeparatorInDigits(a[n + 1..]);
    }
  }

  lemma {:induction false} SeparatorCountAppend(x: string, y: string)
    ensures SeparatorCount(x + y) == SeparatorCount(x) + SeparatorCount(y)
  {
    if x == [] {
      assert x + y == y;
    } else {
      assert (x + y)[1..] == x[1..] + y;
      SeparatorCountAppend(x[1..], y);
    }
  }

  lemma {:induction false} NoSeparatorInDigits(d: string)
    requires AllDigits(d)
    ensures SeparatorCount(d) == 0
  {
    if d != [] {
      NoSeparatorInDigits(d[1..]);
    }
  }

  // ---------------------------------------------------------------------------
  // The whole check
  // ---------------------------------------------------------------------------

  /** validateMT103 as a value: the first failure of the eight checks, None when valid. */
  function Verdict(content: Option<string>): Option<string> {
    if content.None? || IsBlank(content.value) then Some(NullOrBlank)
    else
      var s := content.value;
      var mandatory := FirstMissing(s, MandatoryFields, "Missing mandatory field: ");
      var headers := FirstMissing(s, RequiredHeaders, "Missing required header block: ");
      if mandatory.Some? then mandatory
      else if headers.Some? then headers
      else if FieldStructureFailure(s).Some? then FieldStructureFailure(s)
      else if CompletenessFailure(s).Some? then CompletenessFailure(s)
      else if FirstControlChar(s, 0).Some? then FirstControlChar(s, 0)
      else if BicFailure(s).Some? then BicFailure(s)
      else if DateFailure(s).Some? then DateFailure(s)
      else AmountFailure(s)
  }

  /** validateMT103: the checks in their fixed order, returning at the first failure. */
  method ValidateMt103(content: Option<string>) returns (r: Option<string>)
    ensures r == Verdict(content)
  {
    if content.None? || IsBlank(content.value) {
      return Some(NullOrBlank);
    }
    var s := content.value;
    r := CheckAllPresent(s, MandatoryFields, "Missing mandatory field: ");
    if r.Some? {
      return;
    }
    r := CheckAllPresent(s, RequiredHeaders, "Missing required header block: ");
    if r.Some? {
      return;
    }
    r := CheckFieldStructure(s);
    if r.Some? {
      return;
    }
    r := CompletenessFailure(s);
    if r.Some? {
      return;
    }
    r := CheckInvalidCharacters(s);
    if r.Some? {
      return;
    }
    r := ValidateBicCodes(s);
    if r.Some? {
      return;
    }
    r := DateFailure(s);
    if r.Some? {
      return;
    }
    r := AmountFailure(s);
  }

  /** A message the filter forwards is not blank, holds the mandatory tags and header blocks
      and the trailer, ends with '}', has no "::", no failing line and no control character. */
  lemma ForwardedMessage(s: string)
    requires Verdict(Some(s)).None?
    ensures !IsBlank(s)
    ensures forall k :: 0 <= k < 3 ==> Contains(s, MandatoryFields[k]) && Contains(s, RequiredHeaders[k])
    ensures Contains(s, "{5:") && EndsWith(Trim(s), "}") && !Contains(s, "::")
    ensures forall line :: line in JavaSplit(s, '\n') ==> LineFailure(line).None?
    ensures forall i :: 0 <= i < |s| ==> !IsControlChar(s[i])
  {
    var lines := JavaSplit(s, '\n');
    forall line | line in lines ensures LineFailure(line).None? {
      var k :| 0 <= k < |lines| && lines[k] == line;
    }
  }

  // ---------------------------------------------------------------------------
  // The filter and its counters
  // ---------------------------------------------------------------------------

  /** The filter with its counters and the ids of the transactions it forwarded, in order. */
  class SimpleTransactionFilterService {
    var totalProcessed: nat
    var validForwarded: nat
    var invalidFiltered: nat
    var forwarded: seq<string>

    /** Every processed transaction was either forwarded or filtered out. */
    predicate Valid()
      reads this
    {
      totalProcessed == validForwarded + invalidFiltered && |forwarded| == validForwarded
    }

    constructor ()
      ensures Valid() && totalProcessed == 0 && forwarded == []
    {
      totalProcessed, validForwarded, invalidFiltered := 0, 0, 0;
      forwarded := [];
    }

    /** process: count the transaction, then forward it when its content is valid; a failed
        send counts it as filtered out instead. */
    method Process(transactionId: string, content: Option<string>, sendFails: bool)
      requires Valid()
      modifies this
      ensures Valid()
      ensures totalProcessed == old(totalProcessed) + 1
      ensures Verdict(content).None? && !sendFails ==>
        forwarded == old(forwarded) + [transactionId] && validForwarded == old(validForwarded) + 1
        && invalidFiltered == old(invalidFiltered)
      ensures Verdict(content).Some? || sendFails ==>
        forwarded == old(forwarded) && validForwarded == old(validForwarded)
        && invalidFiltered == old(invalidFiltered) + 1
    {
      totalProcessed := totalProcessed + 1;
      var validationResult := ValidateMt103(content);
      if validationResult.None? && !sendFails {
        forwarded := forwarded + [transactionId];
        validForwarded := validForwarded + 1;
      } else {
        invalidFiltered := invalidFiltered + 1;
      }
    }
  }
}
