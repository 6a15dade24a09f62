/**
 * The transaction filter that stores every verdict: it checks the MT103 blocks and headers
 * on the text stripped of whitespace, then the mandatory tags, the trailer, the field
 * separators, the BICs of 52A and 57A and the date and amount of 32A, and reports the first
 * failure. A valid transaction is forwarded as an alert; every verdict is saved.
 */
module TransactionFilter {
  import opened Wrappers
  import opened JavaString
  import opened Mt103Checks
  import opened Clock
  import opened GenTransaction
  import Simple = SimpleTransactionFilter

  const NullOrBlank: string := "Content is null or blank"
  const MissingBlocks: string := "Missing required MT103 structure blocks"
  const InvalidHeader1: string := "Invalid header block 1 format"
  const InvalidHeader2: string := "Invalid header block 2 format"
  const InvalidTrailer: string := "Invalid trailer block 5 format"
  const MandatoryFields: seq<string> := [":20:", ":23B:", ":32A:"]

  // ---------------------------------------------------------------------------
  // Blocks, headers and trailer, on the text without whitespace
  // ---------------------------------------------------------------------------

  predicate NotRegexSpace(c: char) { !IsRegexSpace(c) }

  /** `content.replaceAll("\\s", "")`. */
  function CleanContent(content: string): (clean: string)
    ensures forall i :: 0 <= i < |clean| ==> !IsRegexSpace(clean[i])
  {
    Filter(content, NotRegexSpace)
  }

  /** The five blocks are there, block 1 first, and the text ends with '}'. */
  predicate HasAllBlocks(clean: string) {
    StartsWith(clean, "{1:") && Contains(clean, "{2:") && Contains(clean, "{3:") && Contains(clean, "{4:")
    && Contains(clean, "{5:") && EndsWith(clean, "}")
  }

  /** `\{1:F01[A-Z]{11}\d\}` at `i`. */
  predicate Header1At(s: string, i: nat) {
    i + 19 <= |s| && s[i..i + 6] == "{1:F01" && (forall j :: i + 6 <= j < i + 17 ==> IsUpper(s[j]))
    && IsDigit(s[i + 17]) && s[i + 18] == '}'
  }

  /** `\{2:I103[A-Z]{11}\d[A-Z]\}` at `i`. */
  predicate Header2At(s: string, i: nat) {
    i + 21 <= |s| && s[i..i + 7] == "{2:I103" && (forall j :: i + 7 <= j < i + 18 ==> IsUpper(s[j]))
    && IsDigit(s[i + 18]) && IsUpper(s[i + 19]) && s[i + 20] == '}'
  }

  /** `.*X.*` with `matches`: `.` takes no line terminator, so the whole text must be free of
      them, and X must occur somewhere. */
  predicate MatchesHeader1(s: string) { NoLineTerminator(s) && exists i :: 0 <= i < |s| && Header1At(s, i) }

  predicate MatchesHeader2(s: string) { NoLineTerminator(s) && exists i :: 0 <= i < |s| && Header2At(s, i) }

  predicate IsUpperHex(c: char) { IsDigit(c) || 'A' <= c <= 'F' }

  /** `[A-F0-9]+`. */
  predicate HexRun(s: string) { |s| > 0 && forall i :: 0 <= i < |s| ==> IsUpperHex(s[i]) }

  /** The text ends with `{5:{MAC:` at `i`, a MAC, `}{CHK:` at `j`, a checksum and `}}`. */
  predicate TrailerAt(s: string, i: nat, j: nat) {
    i + 8 < j && j + 6 < |s| - 2 && s[i..i + 8] == "{5:{MAC:" && s[j..j + 6] == "}{CHK:"
    && s[|s| - 2..] == "}}" && HexRun(s[i + 8..j]) && HexRun(s[j + 6..|s| - 2])
  }

  /** `.*\{5:\{MAC:[A-F0-9]+\}\{CHK:[A-F0-9]+\}\}$` with `matches`. */
  predicate MatchesTrailer(s: string) { NoLineTerminator(s) && exists i, j :: 0 <= i < j < |s| && TrailerAt(s, i, j) }

  /** The trailer the generator writes passes the trailer pattern once the line break in
      front of it is stripped, whatever comes before it on one line. */
  lemma TrailerAccepted(prefix: string, mac: string, checksum: string)
    requires NoLineTerminator(prefix) && HexRun(mac) && HexRun(checksum)
    ensures MatchesTrailer(prefix + "{5:{MAC:" + mac + "}{CHK:" + checksum + "}}")
  {
    var s := prefix + "{5:{MAC:" + mac + "}{CHK:" + checksum + "}}";
    var i, j := |prefix|, |prefix| + 8 + |mac|;
    assert s[i..i + 8] == "{5:{MAC:";
    assert s[i + 8..j] == mac;
    assert s[j..j + 6] == "}{CHK:";
    assert s[j + 6..|s| - 2] == checksum;
    assert s[|s| - 2..] == "}}";
    assert TrailerAt(s, i, j);
    HexFree(mac);
    HexFree(checksum);
    FreeAppend(prefix, "{5:{MAC:");
    FreeAppend(prefix + "{5:{MAC:", mac);
    FreeAppend(prefix + "{5:{MAC:" + mac, "}{CHK:");
    FreeAppend(prefix + "{5:{MAC:" + mac + "}{CHK:", checksum);
    FreeAppend(prefix + "{5:{MAC:" + mac + "}{CHK:" + checksum, "}}");
  }

  lemma HexFree(s: string)
    requires HexRun(s)
    ensures NoLineTerminator(s)
  {
  }

  lemma FreeAppend(a: string, b: string)
    requires NoLineTerminator(a) && NoLineTerminator(b)
    ensures NoLineTerminator(a + b)
  {
    forall k | 0 <= k < |a + b| ensures !IsLineTerminator((a + b)[k]) {
      if k < |a| {
        assert (a + b)[k] == a[k];
      } else {
        assert (a + b)[k] == b[k - |a|];
      }
    }
  }

  /** A text that passes the trailer pattern ends with "}}" and holds the trailer block. */
  lemma TrailerShape(s: string)
    requires MatchesTrailer(s)
    ensures EndsWith(s, "}}") && Contains(s, "{5:")
  {
    var i, j :| 0 <= i < j < |s| && TrailerAt(s, i, j);
    assert s[i..i + 3] == "{5:" by {
      var block := s[i..i + 8];
      assert block == "{5:{MAC:";
      forall k | 0 <= k < 3 ensures s[i + k] == "{5:"[k] {
        assert s[i + k] == block[k];
      }
    }
    ContainsAt(s, "{5:", i);
  }

  // ---------------------------------------------------------------------------
  // Field structure
  // ---------------------------------------------------------------------------

  const DoubleColons: string := "Invalid field structure: double colons found"
  const SemicolonInTag: string := "Invalid field structure: semicolon" + " instead of colon"

  /** `^:[0-9]{2}[A-Z]?;.*` on a trimmed line. */
  predicate SemicolonTagLine(line: string) {
    |line| >= 4 && line[0] == ':' && IsDigit(line[1]) && IsDigit(line[2])
    && ((line[3] == ';' && NoLineTerminator(line[4..]))
        || (|line| >= 5 && IsUpper(line[3]) && line[4] == ';' && NoLineTerminator(line[5..])))
  }

  function LineFailure(line: string): Option<string> {
    if SemicolonTagLine(Trim(line)) then Some(SemicolonInTag) else None
  }

  /** checkFieldStructure: a double colon anywhere, else the first line with a semicolon tag. */
  function FieldStructureFailure(content: string): (r: Option<string>)
    ensures r.None? <==>
      !Contains(content, "::") && forall k :: 0 <= k < |JavaSplit(content, '\n')| ==> !SemicolonTagLine(Trim(JavaSplit(content, '\n')[k]))
  {
    if Contains(content, "::") then Some(DoubleColons)
    else FirstFailure(JavaSplit(content, '\n'), LineFailure)
  }

  /** checkFieldStructure: the line loop returns at the first failing line. */
  method CheckFieldStructure(content: string) returns (r: Option<string>)
    ensures r == FieldStructureFailure(content)
  {
    if Contains(content, "::") {
      return Some(DoubleColons);
    }
    var lines := JavaSplit(content, '\n');
    for i := 0 to |lines|
      invariant FirstFailure(lines, LineFailure) == FirstFailure(lines[i..], LineFailure)
    {
      assert lines[i..][1..] == lines[i + 1..];
      var line := Trim(lines[i]);
      if SemicolonTagLine(line) {
        return Some(SemicolonInTag);
      }
    }
    return None;
  }

  // ---------------------------------------------------------------------------
  // BIC codes
  // ---------------------------------------------------------------------------

  const BicFields: seq<string> := [":52A:", ":57A:"]

  /** validateSingleBIC: the length, then the pattern. */
  function SingleBicFailure(bic: string): (r: Option<string>)
    ensures r.None? <==> MatchesBicPattern(bic)
    ensures r.Some? && (|bic| < 8 || |bic| > 11) ==> r.value == "BIC length invalid: " + bic
  {
    if |bic| < 8 || |bic| > 11 then Some("BIC length invalid: " + bic)
    else if !MatchesBicPattern(bic) then Some("BIC format invalid: " + bic)
    else None
  }

  /** The first line of the trimmed field body, trimmed; None where reading `lines[0]`
      throws. */
  function BicLine(body: string): Option<string> {
    var lines := JavaSplit(Trim(body), '\n');
    if lines == [] then None else Some(Trim(lines[0]))
  }

  /** The failure of one BIC field: the first line is checked when it has 8 or more
      characters. */
  function BicFieldFailure(content: string, field: string): Option<string> {
    var body := Simple.BicFieldBody(content, field);
    if body.None? then None
    else
      var potentialBic := BicLine(body.value);
      if potentialBic.None? then Some("Error parsing BIC in field " + field)
      else if |potentialBic.value| >= 8 && SingleBicFailure(potentialBic.value).Some? then
        Some("Invalid BIC in field " + field + ": " + SingleBicFailure(potentialBic.value).value)
      else None
  }

  function BicFailure(content: string): Option<string> {
    FirstFailure(BicFields, field => BicFieldFailure(content, field))
  }

  /** validateBICCodes: fields 52A and 57A in turn, returning at the first failure. */
  method ValidateBicCodes(content: string) returns (r: Option<string>)
    ensures r == BicFailure(content)
  {
    for k := 0 to |BicFields|
      invariant BicFailure(content) == FirstFailure(BicFields[k..], field => BicFieldFailure(content, field))
    {
      assert BicFields[k..][1..] == BicFields[k + 1..];
      r := BicFieldFailure(content, BicFields[k]);
      if r.Some? {
        return r;
      }
    }
    return None;
  }

  lemma {:induction false} DropTrailingEmptyKeeps(r: seq<string>, k: nat)
    requires k < |r| && r[k] != ""
    ensures k < |DropTrailingEmpty(r)|
    decreases |r|
  {
    if r[|r| - 1] == "" {
      DropTrailingEmptyKeeps(r[..|r| - 1], k);
    }
  }

  /** A trimmed text always splits into at least one line, so the catch around `lines[0]`
      is never reached. */
  lemma BicLineExists(body: string)
    ensures BicLine(body).Some?
  {
    var t := Trim(body);
    if '\n' in t {
      assert t != [] && t[0] != '\n';
      assert Pieces(t, '\n')[0] == UpTo(t, '\n') != "";
      DropTrailingEmptyKeeps(Pieces(t, '\n'), 0);
    }
  }

  /** The BIC check passes exactly when 52A and 57A are each missing, or have a first line
      shorter than 8 characters or matching the BIC pattern. */
  lemma BicFailureMeaning(content: string)
    ensures BicFailure(content).None? <==>
      forall k :: 0 <= k < 2 ==>
        var body := Simple.BicFieldBody(content, BicFields[k]);
        body.None?
        || (BicLine(body.value).Some?
            && (|BicLine(body.value).value| < 8 || MatchesBicPattern(BicLine(body.value).value)))
  {
    forall k | 0 <= k < 2 && Simple.BicFieldBody(content, BicFields[k]).Some? {
      BicLineExists(Simple.BicFieldBody(content, BicFields[k]).value);
    }
  }

  // ---------------------------------------------------------------------------
  // Field 32A: date and amount
  // ---------------------------------------------------------------------------

  /** validateDateFormat: six digits with month 1..12 and day 1..31; no check of the days of
      the month. */
  function DateFailure(content: string): Option<string> {
    var field := Simple.Field32A(content);
    if field.None? then None
    else if |field.value| < 6 then Some("Date field too short in :32A:")
    else
      var dateStr := field.value[..6];
      if !MatchesDatePattern(dateStr) then Some("Invalid date format in :32A:")
      else
        var month, day := ParsePair(dateStr, 2), ParsePair(dateStr, 4);
        if month.None? || day.None? then Some("Error parsing date in :32A:")
        else if month.value < 1 || month.value > 12 || day.value < 1 || day.value > 31 then
          Some("Invalid date values in :32A:")
        else None
  }

  /** The date check passes exactly when 32A is missing or opens with six digits whose month
      is 1..12 and whose day is 1..31. */
  lemma DateFailureMeaning(content: string)
    ensures DateFailure(content).None? <==>
      var field := Simple.Field32A(content);
      field.None? || (|field.value| >= 6 && MatchesDatePattern(field.value[..6])
        && 1 <= Month(field.value[..6]) <= 12 && 1 <= Day(field.value[..6]) <= 31)
  {
    var field := Simple.Field32A(content);
    if field.Some? && |field.value| >= 6 && MatchesDatePattern(field.value[..6]) {
      ParsePairOfDigits(field.value[..6], 2);
      ParsePairOfDigits(field.value[..6], 4);
    }
  }

  /** Every date the simple filter accepts passes here too, and February 30th passes here
      although the simple filter rejects it. */
  lemma DateLooserThanSimple(content: string)
    ensures Simple.DateFailure(content).None? ==> DateFailure(content).None?
    ensures Simple.Field32A(content).Some? && |Simple.Field32A(content).value| >= 6
      && MatchesDatePattern(Simple.Field32A(content).value[..6])
      && Month(Simple.Field32A(content).value[..6]) == 2 && Day(Simple.Field32A(content).value[..6]) == 30
      ==> DateFailure(content).None? && Simple.DateFailure(content).Some?
  {
    DateFailureMeaning(content);
    Simple.DateFailureMeaning(content);
  }

  /** validateAmountFormat: the text after the ninth character, trimmed, stripped to
      [0-9,.-], must match the amount pattern. */
  function AmountFailure(content: string): Option<string> {
    var field := Simple.Field32A(content);
    if field.None? then None
    else if |field.value| <= 9 then Some("Amount field too short in :32A:")
    else
      var amountPart := Trim(field.value[9..]);
      if amountPart == "" then Some("Empty amount in :32A:")
      else if !MatchesAmountPattern(Filter(amountPart, Simple.IsCleanAmountChar)) then
        Some("Invalid amount format: " + amountPart)
      else None
  }

  /** The amount check passes exactly when 32A is missing or its cleaned amount matches
      `\d+([,.]\d{1,2})?`; whatever the simple filter accepts passes here too. */
  lemma AmountFailureMeaning(content: string)
    ensures AmountFailure(content).None? <==>
      Simple.Field32A(content).None?
      || (Simple.CleanAmount(content).Some? && MatchesAmountPattern(Simple.CleanAmount(content).value))
    ensures Simple.AmountFailure(content).None? ==> AmountFailure(content).None?
  {
    var field := Simple.Field32A(content);
    if field.Some? && |field.value| > 9 && Trim(field.value[9..]) == "" {
      assert Filter("", Simple.IsCleanAmountChar) == "";
    }
  }

  // ---------------------------------------------------------------------------
  // The whole check
  // ---------------------------------------------------------------------------

  /** The checks on the text without whitespace that come before the mandatory tags. */
  function HeaderFailure(clean: string): (r: Option<string>)
    ensures r.None? <==> HasAllBlocks(clean) && MatchesHeader1(clean) && MatchesHeader2(clean)
    ensures r.Some? ==> r.value in {MissingBlocks, InvalidHeader1, InvalidHeader2}
  {
    if !HasAllBlocks(clean) then Some(MissingBlocks)
    else if !MatchesHeader1(clean) then Some(InvalidHeader1)
    else if !MatchesHeader2(clean) then Some(InvalidHeader2)
    else None
  }

  /** The checks on the fields that come after the trailer. */
  function FieldFailure(s: string): Option<string> {
    if FieldStructureFailure(s).Some? then FieldStructureFailure(s)
    else if BicFailure(s).Some? then BicFailure(s)
    else if DateFailure(s).Some? then DateFailure(s)
    else AmountFailure(s)
  }

  /** validateMT103 as a value: the first failure of the checks, None when valid. */
  function Verdict(content: Option<string>): Option<string> {
    if content.None? || IsBlank(content.value) then Some(NullOrBlank)
    else
      var s := content.value;
      var clean := CleanContent(s);
      var mandatory := FirstMissing(s, MandatoryFields, "Missing mandatory field: ");
      if HeaderFailure(clean).Some? then HeaderFailure(clean)
      else if mandatory.Some? then mandatory
      else if !MatchesTrailer(clean) then Some(InvalidTrailer)
      else FieldFailure(s)
  }

  /** validateMT103: the checks in their fixed order, returning at the first failure. */
  method ValidateMt103(content: Option<string>) returns (r: Option<string>)
    ensures r == Verdict(content)
  {
    if content.None? || IsBlank(content.value) {
      return Some(NullOrBlank);
    }
    var s := content.value;
    var clean := CleanContent(s);
    if !HasAllBlocks(clean) {
      return Some(MissingBlocks);
    }
    if !MatchesHeader1(clean) {
      return Some(InvalidHeader1);
    }
    if !MatchesHeader2(clean) {
      return Some(InvalidHeader2);
    }
    r := CheckAllPresent(s, MandatoryFields, "Missing mandatory field: ");
    if r.Some? {
      return;
    }
    if !MatchesTrailer(clean) {
      return Some(InvalidTrailer);
    }
    r := CheckFieldStructure(s);
    if r.Some? {
      return;
    }
    r := ValidateBicCodes(s);
    if r.Some? {
      return;
    }
    r := DateFailure(s);
    if r.Some? {
      return;
    }
    r := AmountFailure(s);
  }

  /** A message the filter forwards has, once its whitespace is stripped, block 1 first, the
      five blocks, both header formats and a trailer of hexadecimal MAC and checksum closing
      the text; it holds the mandatory tags and no "::". */
  lemma ForwardedMessage(s: string)
    requires Verdict(Some(s)).None?
    ensures !IsBlank(s) && HasAllBlocks(CleanContent(s))
    ensures MatchesHeader1(CleanContent(s)) && MatchesHeader2(CleanContent(s)) && MatchesTrailer(CleanContent(s))
    ensures EndsWith(CleanContent(s), "}}")
    ensures forall k :: 0 <= k < 3 ==> Contains(s, MandatoryFields[k])
    ensures !Contains(s, "::")
  {
    TrailerShape(CleanContent(s));
  }

  // ---------------------------------------------------------------------------
  // The filter, its alerts and its store
  // ---------------------------------------------------------------------------

  /** A transaction with the MT103 text that came with it. */
  datatype TransactionEvent = TransactionEvent(transaction: Transaction, mt103Content: Option<string>)

  /** A saved copy of a transaction with its verdict and the time it was processed. */
  datatype StoredTransaction = StoredTransaction(
    transaction: Transaction, isValid: bool, validationReason: string, processedAt: LocalDateTime)

  const ValidReason: string := "Valid"

  /** Every failure message is longer than the reason saved for a valid transaction. */
  lemma FailureIsNotValidReason(content: Option<string>)
    requires Verdict(content).Some?
    ensures |Verdict(content).value| > |ValidReason|
  {
    if content.Some? && !IsBlank(content.value) {
      var s := content.value;
      if HeaderFailure(CleanContent(s)).None? && FirstMissing(s, MandatoryFields, "Missing mandatory field: ").None?
        && MatchesTrailer(CleanContent(s)) {
        FieldFailureLong(s);
      }
    }
  }

  lemma FieldFailureLong(s: string)
    requires FieldFailure(s).Some?
    ensures |FieldFailure(s).value| > |ValidReason|
  {
    FieldStructureFailureLong(s);
    BicFailureLong(s);
  }

  lemma FieldStructureFailureLong(s: string)
    ensures FieldStructureFailure(s).Some? ==> |FieldStructureFailure(s).value| > |ValidReason|
  {
    if !Contains(s, "::") && FieldStructureFailure(s).Some? {
      var lines := JavaSplit(s, '\n');
      var k :| 0 <= k < |lines| && LineFailure(lines[k]) == FieldStructureFailure(s);
    }
  }

  lemma BicFailureLong(s: string)
    ensures BicFailure(s).Some? ==> |BicFailure(s).value| > |ValidReason|
  {
    if BicFailure(s).Some? {
      var k :| 0 <= k < |BicFields| && BicFieldFailure(s, BicFields[k]) == BicFailure(s);
    }
  }

  class TransactionFilterService {
    /** The events forwarded as alerts, in order. */
    var alerts: seq<TransactionEvent>
    /** The transactions saved to the store, in order. */
    var saved: seq<StoredTransaction>

    /** A saved record is valid exactly when its reason is "Valid". */
    predicate Valid()
      reads this
    {
      forall i :: 0 <= i < |saved| ==> (saved[i].isValid <==> saved[i].validationReason == ValidReason)
    }

    constructor ()
      ensures Valid() && alerts == [] && saved == []
    {
      alerts, saved := [], [];
    }

    /** saveTransaction: a copy with the verdict and the time; a failing store saves nothing. */
    method SaveTransaction(original: Transaction, isValid: bool, validationReason: string,
                           saveFails: bool, now: LocalDateTime)
      modifies this
      ensures alerts == old(alerts)
      ensures saved == old(saved) + (if saveFails then [] else [StoredTransaction(original, isValid, validationReason, now)])
    {
      if !saveFails {
        saved := saved + [StoredTransaction(original, isValid, validationReason, now)];
      }
    }

    /** process: a valid transaction is forwarded and then saved as valid; an invalid one is
        saved with its reason; a failing send stops before anything is saved. */
    method Process(event: TransactionEvent, sendFails: bool, saveFails: bool, now: LocalDateTime)
      requires Valid()
      modifies this
      ensures Valid()
      ensures Verdict(event.mt103Content).None? && !sendFails ==>
        alerts == old(alerts) + [event]
        && saved == old(saved) + (if saveFails then [] else [StoredTransaction(event.transaction, true, ValidReason, now)])
      ensures Verdict(event.mt103Content).None? && sendFails ==> alerts == old(alerts) && saved == old(saved)
      ensures Verdict(event.mt103Content).Some? ==>
        alerts == old(alerts)
        && saved == old(saved)
          + (if saveFails then [] else [StoredTransaction(event.transaction, false, Verdict(event.mt103Content).value, now)])
    {
      var validationResult := ValidateMt103(event.mt103Content);
      if validationResult.None? {
        if sendFails {
          return;
        }
        alerts := alerts + [event];
        SaveTransaction(event.transaction, true, ValidReason, saveFails, now);
      } else {
        FailureIsNotValidReason(event.mt103Content);
        SaveTransaction(event.transaction, false, validationResult.value, saveFails, now);
      }
    }
  }
}
