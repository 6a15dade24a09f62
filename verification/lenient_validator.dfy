/**
 * The lenient MT103 field validator: it looks for tags with or without their leading colon,
 * cuts a field at the next ":<digit>", and turns most findings into warnings. Only a missing
 * mandatory tag, a BIC that starts with a digit, and malformed dates or amounts are errors,
 * and the extraction already excludes the last two.
 */
module LenientFieldValidator {
  import opened Wrappers
  import opened JavaString
  import opened Mt103Checks
  import Strict = Mt103FieldValidator

  // ---------------------------------------------------------------------------
  // Mandatory fields
  // ---------------------------------------------------------------------------

  /** containsField: ":20:", "{20:" or "20:" anywhere. */
  predicate ContainsField(content: string, fieldNumber: string) {
    Contains(content, ":" + fieldNumber + ":") || Contains(content, "{" + fieldNumber + ":")
    || Contains(content, fieldNumber + ":")
  }

  lemma ContainsAfterFirst(content: string, c: char, p: string)
    requires Contains(content, [c] + p)
    ensures Contains(content, p)
  {
    var r := IndexOf(content, [c] + p);
    assert content[r + 1..r + 1 + |p|] == content[r..r + 1 + |p|][1..];
    ContainsAt(content, p, r + 1);
  }

  /** The two forms with a leading character imply the bare one, so only "20:" matters. */
  lemma ContainsFieldMeaning(content: string, fieldNumber: string)
    ensures ContainsField(content, fieldNumber) <==> Contains(content, fieldNumber + ":")
  {
    if Contains(content, ":" + fieldNumber + ":") {
      assert ":" + fieldNumber + ":" == [':'] + (fieldNumber + ":");
      ContainsAfterFirst(content, ':', fieldNumber + ":");
    }
    if Contains(content, "{" + fieldNumber + ":") {
      assert "{" + fieldNumber + ":" == ['{'] + (fieldNumber + ":");
      ContainsAfterFirst(content, '{', fieldNumber + ":");
    }
  }

  /** The errors for the fields 20, 23B and 32A not found in any form, in that order. */
  function MissingFieldErrors(s: string): (errors: seq<string>)
    ensures |errors| <= 3
  {
    (if !ContainsField(s, "20") then [Strict.Missing20] else [])
    + (if !ContainsField(s, "23B") then [Strict.Missing23B] else [])
    + (if !ContainsField(s, "32A") then [Strict.Missing32A] else [])
  }

  /** validateMandatoryFields: one error for null or blank content, otherwise the missing
      field errors. */
  function MandatoryFieldErrors(content: Option<string>): (errors: seq<string>)
    ensures content.None? || Trim(content.value) == "" ==> errors == [Strict.NullOrEmpty]
    ensures content.Some? && Trim(content.value) != "" ==> errors == MissingFieldErrors(content.value)
  {
    if content.None? || Trim(content.value) == "" then [Strict.NullOrEmpty]
    else MissingFieldErrors(content.value)
  }

  /** A field is reported missing exactly when "20:", "23B:" or "32A:" does not occur. */
  lemma MissingFieldErrorsMeaning(s: string)
    ensures MissingFieldErrors(s) == [] <==> Contains(s, "20:") && Contains(s, "23B:") && Contains(s, "32A:")
    ensures Strict.Missing20 in MissingFieldErrors(s) <==> !Contains(s, "20:")
    ensures Strict.Missing23B in MissingFieldErrors(s) <==> !Contains(s, "23B:")
    ensures Strict.Missing32A in MissingFieldErrors(s) <==> !Contains(s, "32A:")
  {
    ContainsFieldMeaning(s, "20");
    ContainsFieldMeaning(s, "23B");
    ContainsFieldMeaning(s, "32A");
    assert "20" + ":" == "20:" && "23B" + ":" == "23B:" && "32A" + ":" == "32A:";
    assert Strict.Missing20[26] == '0' && Strict.Missing23B[26] == '3' && Strict.Missing32A[26] == '2';
  }

  /** Whatever passes the strict mandatory check passes the lenient one. */
  lemma StrictMandatoryImpliesLenient(s: string)
    requires Strict.MandatoryFieldErrors(Some(s)) == []
    ensures MandatoryFieldErrors(Some(s)) == []
  {
    Strict.MandatoryFieldErrorsEmpty(s);
    var r := IndexOf(s, ":20:");
    assert s[r..r + 4] == ":20:" && s[r..r + 4][0] == s[r];
    TrimVisible(s, r);
    assert ":20:" == [':'] + "20:" && ":23B:" == [':'] + "23B:" && ":32A:" == [':'] + "32A:";
    ContainsAfterFirst(s, ':', "20:");
    ContainsAfterFirst(s, ':', "23B:");
    ContainsAfterFirst(s, ':', "32A:");
    MissingFieldErrorsMeaning(s);
  }

  // ---------------------------------------------------------------------------
  // Cutting out a field
  // ---------------------------------------------------------------------------

  /** A ':' followed by a digit starts the next field. */
  predicate FieldStart(s: string, i: nat) {
    i + 1 < |s| && s[i] == ':' && IsDigit(s[i + 1])
  }

  /** The first field start at or after `i`, or the length of the text. */
  function NextFieldFrom(s: string, i: nat): (r: nat)
    requires i <= |s|
    ensures i <= r <= |s|
    ensures r < |s| ==> FieldStart(s, r)
    ensures forall j :: i <= j < r ==> !FieldStart(s, j)
    decreases |s| - i
  {
    if i + 1 >= |s| then |s|
    else if s[i] == ':' && IsDigit(s[i + 1]) then i
    else NextFieldFrom(s, i + 1)
  }

  /** findNextFieldOrEnd: a scan that stops at the first ':' followed by a digit. */
  method FindNextFieldOrEnd(content: string, start: nat) returns (nextField: nat)
    requires start <= |content|
    ensures nextField == NextFieldFrom(content, start)
  {
    nextField := |content|;
    var i := start;
    while i < |content| - 1
      invariant start <= i <= |content|
      invariant NextFieldFrom(content, start) == NextFieldFrom(content, i)
    {
      if content[i] == ':' && IsDigit(content[i + 1]) {
        nextField := i;
        break;
      }
      i := i + 1;
    }
  }

  /** The trimmed text between the first occurrence of `tag` and the next field start;
      None when the tag does not occur. */
  function FieldText(s: string, tag: string): Option<string> {
    var index := IndexOf(s, tag);
    if index == -1 then None else Some(Trim(s[index + |tag|..NextFieldFrom(s, index + |tag|)]))
  }

  /** One round of an extraction loop: locate the tag, cut the field, trim it. */
  method FindFieldText(s: string, tag: string) returns (fieldContent: Option<string>)
    ensures fieldContent == FieldText(s, tag)
  {
    var index := IndexOf(s, tag);
    if index == -1 {
      return None;
    }
    var start := index + |tag|;
    var end := FindNextFieldOrEnd(s, start);
    fieldContent := Some(Trim(s[start..end]));
  }

  // ---------------------------------------------------------------------------
  // BIC format
  // ---------------------------------------------------------------------------

  const BicPatterns: seq<string> := [":52A:", ":57A:", ":59:", "52A:", "57A:", "59:"]

  /** The BIC looked for in a field: its first word when that has 8 to 11 characters,
      without those outside [A-Z0-9], kept when 8 or more remain. */
  function BicOfField(fieldContent: string): (r: seq<string>)
    ensures |r| <= 1 && forall i :: 0 <= i < |r| ==> Strict.BicShaped(r[i])
  {
    var word := FirstWord(fieldContent);
    if 8 <= |word| <= 11 then
      var potential := Filter(word, IsUpperAlnum);
      if |potential| >= 8 then [potential] else []
    else []
  }

  function FoundBic(s: string, tag: string): seq<string> {
    var field := FieldText(s, tag);
    if field.Some? then BicOfField(field.value) else []
  }

  /** The BICs extracted from the first occurrence of each of `tags`, in order. */
  function ExtractedBics(s: string, tags: seq<string>): seq<string> {
    Collect(tags, tag => FoundBic(s, tag))
  }

  /** Every BIC the lenient extraction finds has 8 to 11 characters of [A-Z0-9]. */
  lemma ExtractedBicsShaped(s: string, tags: seq<string>)
    ensures forall b :: b in ExtractedBics(s, tags) ==> Strict.BicShaped(b)
  {
    CollectMeaning(tags, tag => FoundBic(s, tag));
  }

  /** extractBICFields: one pass over the six tag forms. The text of a trimmed field does
      not start with white space, so the first word of `split("\\s+")` is its leading run of
      non-space characters. */
  method ExtractBicFields(s: string) returns (bics: seq<string>)
    ensures bics == ExtractedBics(s, BicPatterns)
  {
    bics := [];
    for k := 0 to |BicPatterns|
      invariant bics == ExtractedBics(s, BicPatterns[..k])
    {
      var fieldContent := FindFieldText(s, BicPatterns[k]);
      CollectStep(BicPatterns, tag => FoundBic(s, tag), k);
      if fieldContent.Some? {
        var word := FirstWord(fieldContent.value);
        if 8 <= |word| <= 11 {
          var potentialBic := Filter(word, IsUpperAlnum);
          if |potentialBic| >= 8 {
            bics := bics + [potentialBic];
          }
        }
      }
    }
    assert BicPatterns[..|BicPatterns|] == BicPatterns;
  }

  /** Only a BIC of the right length that starts with a digit is an error; a wrong length
      and a pattern mismatch are warnings. */
  function BicError(bic: string): seq<string> {
    if |bic| < 8 || |bic| > 11 then []
    else if IsDigit(bic[0]) then [Strict.BicDigitError(bic)]
    else []
  }

  function BicFormatErrors(s: string): seq<string> {
    Collect(ExtractedBics(s, BicPatterns), BicError)
  }

  /** validateBICFormat (lenient). */
  method ValidateBicFormat(s: string) returns (errors: seq<string>)
    ensures errors == BicFormatErrors(s)
  {
    var bicFields := ExtractBicFields(s);
    errors := [];
    for i := 0 to |bicFields|
      invariant errors == Collect(bicFields[..i], BicError)
    {
      var bic := bicFields[i];
      CollectStep(bicFields, BicError, i);
      if |bic| < 8 || |bic| > 11 {
        continue;
      }
      if IsDigit(bic[0]) {
        errors := errors + [Strict.BicDigitError(bic)];
        continue;
      }
    }
    assert bicFields[..|bicFields|] == bicFields;
  }

  predicate DigitFirst(b: string) { b != "" && IsDigit(b[0]) }

  /** The lenient BIC check reports exactly the extracted BICs that start with a digit. */
  lemma BicFormatErrorsMeaning(s: string)
    ensures BicFormatErrors(s) == [] <==> forall b :: b in ExtractedBics(s, BicPatterns) ==> !DigitFirst(b)
    ensures forall e :: e in BicFormatErrors(s) ==>
      exists b :: b in ExtractedBics(s, BicPatterns) && DigitFirst(b) && e == Strict.BicDigitError(b)
  {
    var bics := ExtractedBics(s, BicPatterns);
    ExtractedBicsShaped(s, BicPatterns);
    CollectMeaning(bics, BicError);
    forall e | e in BicFormatErrors(s)
      ensures exists b :: b in bics && DigitFirst(b) && e == Strict.BicDigitError(b)
    {
      var i :| 0 <= i < |bics| && e in BicError(bics[i]);
      assert bics[i] in bics;
    }
    forall b | b in bics ensures BicError(b) == [] <==> !DigitFirst(b) {
      assert Strict.BicShaped(b);
    }
  }

  // ---------------------------------------------------------------------------
  // Date format
  // ---------------------------------------------------------------------------

  const DatePatterns: seq<string> := [":32A:", "32A:"]

  /** The date looked for in a 32A field: its first six characters when they are digits. */
  function DateOfField(fieldContent: string): (r: seq<string>)
    ensures |r| <= 1
  {
    if |fieldContent| >= 6 && AllDigits(fieldContent[..6]) then [fieldContent[..6]] else []
  }

  function FoundDate(s: string, tag: string): seq<string> {
    var field := FieldText(s, tag);
    if field.Some? then DateOfField(field.value) else []
  }

  function ExtractedDates(s: string): seq<string> {
    Collect(DatePatterns, tag => FoundDate(s, tag))
  }

  /** Every extracted date is six digits. */
  lemma ExtractedDatesDigits(s: string)
    ensures forall d :: d in ExtractedDates(s) ==> MatchesDatePattern(d)
  {
    CollectMeaning(DatePatterns, tag => FoundDate(s, tag));
  }

  /** extractDatesFromField32A (lenient). */
  method ExtractDates(s: string) returns (dates: seq<string>)
    ensures dates == ExtractedDates(s)
  {
    dates := [];
    for k := 0 to |DatePatterns|
      invariant dates == Collect(DatePatterns[..k], tag => FoundDate(s, tag))
    {
      var fieldContent := FindFieldText(s, DatePatterns[k]);
      CollectStep(DatePatterns, tag => FoundDate(s, tag), k);
      if fieldContent.Some? && |fieldContent.value| >= 6 {
        var potentialDate := fieldContent.value[..6];
        if AllDigits(potentialDate) {
          dates := dates + [potentialDate];
        }
      }
    }
    assert DatePatterns[..|DatePatterns|] == DatePatterns;
  }

  /** validateDateFormat (lenient): a length error, a format error, and otherwise at most a
      warning; since every extracted date is six digits, it never reports an error. */
  method ValidateDateFormat(s: string) returns (errors: seq<string>)
    ensures errors == []
  {
    var dates := ExtractDates(s);
    ExtractedDatesDigits(s);
    errors := [];
    for i := 0 to |dates|
      invariant errors == []
    {
      var date := dates[i];
      assert date in dates;
      if |date| != 6 {
        errors := errors + ["Invalid date length: " + date + " (must be 6 digits YYMMDD)"];
        continue;
      }
      if !MatchesDatePattern(date) {
        errors := errors + ["Invalid date format: " + date + " (must be numeric YYMMDD)"];
        continue;
      }
    }
  }

  // ---------------------------------------------------------------------------
  // Amount format
  // ---------------------------------------------------------------------------

  predicate IsAmountChar(c: char) { IsDigit(c) || c == ',' || c == '.' }

  /** The amount looked for in a 32A field: what follows the ninth character, without the
      characters outside [0-9,.], kept when something remains. */
  function AmountOfField(fieldContent: string): (r: seq<string>)
    ensures |r| <= 1
  {
    if |fieldContent| > 9 then
      var amount := Filter(fieldContent[9..], IsAmountChar);
      if amount != "" then [amount] else []
    else []
  }

  function FoundAmount(s: string, tag: string): seq<string> {
    var field := FieldText(s, tag);
    if field.Some? then AmountOfField(field.value) else []
  }

  function ExtractedAmounts(s: string): seq<string> {
    Collect(DatePatterns, tag => FoundAmount(s, tag))
  }

  /** Every extracted amount is a non-empty text of digits, ',' and '.'. */
  lemma ExtractedAmountsShape(s: string)
    ensures forall a :: a in ExtractedAmounts(s) ==>
      a != "" && forall i :: 0 <= i < |a| ==> IsAmountChar(a[i])
  {
    var found := tag => FoundAmount(s, tag);
    CollectMeaning(DatePatterns, found);
    forall a | a in ExtractedAmounts(s)
      ensures a != "" && forall i :: 0 <= i < |a| ==> IsAmountChar(a[i])
    {
      var k :| 0 <= k < |DatePatterns| && a in found(DatePatterns[k]);
      AmountOfFieldShape(FieldText(s, DatePatterns[k]).value);
    }
  }

  /** The amount found in one field is a non-empty text of digits, ',' and '.'. */
  lemma AmountOfFieldShape(fieldContent: string)
    ensures forall a :: a in AmountOfField(fieldContent) ==>
      a != "" && forall i :: 0 <= i < |a| ==> IsAmountChar(a[i])
  {
  }

  /** A non-empty text of digits, ',' and '.' is neither blank nor negative. */
  lemma AmountPassesChecks(amount: string)
    requires amount != "" && forall i :: 0 <= i < |amount| ==> IsAmountChar(amount[i])
    ensures Trim(amount) != "" && !StartsWith(amount, "-")
  {
    TrimVisible(amount, 0);
    assert amount[0] != '-';
  }

  /** extractAmountsFromField32A (lenient). */
  method ExtractAmounts(s: string) returns (amounts: seq<string>)
    ensures amounts == ExtractedAmounts(s)
  {
    amounts := [];
    for k := 0 to |DatePatterns|
      invariant amounts == Collect(DatePatterns[..k], tag => FoundAmount(s, tag))
    {
      var fieldContent := FindFieldText(s, DatePatterns[k]);
      CollectStep(DatePatterns, tag => FoundAmount(s, tag), k);
      if fieldContent.Some? && |fieldContent.value| > 9 {
        var amount := Filter(fieldContent.value[9..], IsAmountChar);
        if amount != "" {
          amounts := amounts + [amount];
        }
      }
    }
    assert DatePatterns[..|DatePatterns|] == DatePatterns;
  }

  /** validateAmountFormat (lenient): an empty or negative amount is an error, an unusual
      format a warning; since every extracted amount is a non-empty text of digits, ',' and
      '.', it never reports an error. */
  method ValidateAmountFormat(s: string) returns (errors: seq<string>)
    ensures errors == []
  {
    var amounts := ExtractAmounts(s);
    ExtractedAmountsShape(s);
    errors := [];
    for i := 0 to |amounts|
      invariant errors == []
    {
      var amount := amounts[i];
      assert amount in amounts;
      AmountPassesChecks(amount);
      if Trim(amount) == "" {
        errors := errors + ["Amount is empty"];
        continue;
      }
      if StartsWith(amount, "-") {
        errors := errors + ["Invalid amount: " + amount + " (negative values not allowed)"];
        continue;
      }
    }
  }
}
