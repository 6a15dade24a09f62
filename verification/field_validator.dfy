/**
 * The strict MT103 field validator: mandatory tags, the BICs of fields 52A, 57A and 59,
 * the value date and the amount of field 32A. Each check returns the list of every error
 * it finds.
 */
module Mt103FieldValidator {
  import opened Wrappers
  import opened JavaString
  import opened Mt103Checks

  const NullOrEmpty: string := "MT103 content is null or empty"
  const Missing20: string := "Missing mandatory field :20: (Transaction Reference)"
  const Missing23B: string := "Missing mandatory field :23B: (Bank Operation Code)"
  const Missing32A: string := "Missing mandatory field :32A: (Value Date/Currency/Amount)"

  /** validateMandatoryFields: one error for null or empty content, otherwise one error
      per missing tag among 20, 23B and 32A, in that order. */
  function MandatoryFieldErrors(content: Option<string>): (errors: seq<string>)
    ensures content.None? || content.value == "" ==> errors == [NullOrEmpty]
    ensures content.Some? && content.value != "" ==>
      var s := content.value;
      |errors| <= 3
      && (errors == [] <==> Contains(s, ":20:") && Contains(s, ":23B:") && Contains(s, ":32A:"))
      && (Missing20 in errors <==> !Contains(s, ":20:"))
      && (Missing23B in errors <==> !Contains(s, ":23B:"))
      && (Missing32A in errors <==> !Contains(s, ":32A:"))
      && (Missing20 in errors ==> errors[0] == Missing20)
      && (Missing32A in errors ==> errors[|errors| - 1] == Missing32A)
  {
    if content.None? || content.value == "" then [NullOrEmpty]
    else
      var s := content.value;
      assert Missing20[26] == '0' && Missing23B[26] == '3' && Missing32A[26] == '2';
      (if !Contains(s, ":20:") then [Missing20] else [])
      + (if !Contains(s, ":23B:") then [Missing23B] else [])
      + (if !Contains(s, ":32A:") then [Missing32A] else [])
  }

  /** The mandatory check passes a message exactly when it is not empty and holds the three
      mandatory tags. */
  lemma MandatoryFieldErrorsEmpty(s: string)
    ensures MandatoryFieldErrors(Some(s)) == [] <==> s != "" && Contains(s, ":20:") && Contains(s, ":23B:") && Contains(s, ":32A:")
  {
  }

  // ---------------------------------------------------------------------------
  // Extraction from the message text
  // ---------------------------------------------------------------------------

  /** Where the line that `start` is on ends: the next "\n" or the end of the text. */
  function LineEnd(s: string, start: nat): (end: nat)
    requires start <= |s|
    ensures start <= end <= |s|
  {
    var newline := IndexOfFrom(s, "\n", start);
    if newline == -1 then |s| else newline
  }

  /** The text after the first occurrence of `tag` up to the end of its line, trimmed;
      None when the tag does not occur. */
  function TagLine(s: string, tag: string): Option<string> {
    var index := IndexOf(s, tag);
    if index == -1 then None else Some(Trim(s[index + |tag|..LineEnd(s, index + |tag|)]))
  }

  /** A BIC as extracted: 8 to 11 characters of [A-Z0-9]. */
  predicate BicShaped(b: string) {
    8 <= |b| <= 11 && forall i :: 0 <= i < |b| ==> IsUpperAlnum(b[i])
  }

  /** The BIC looked for in a field line of 8 or more characters: its first eleven
      characters without those outside [A-Z0-9], kept when 8 or more remain. */
  function BicCandidate(line: string): (r: Option<string>)
    ensures r.Some? ==> BicShaped(r.value)
  {
    if line != "" && |line| >= 8 then
      var potential := Filter(line[..if |line| < 11 then |line| else 11], IsUpperAlnum);
      if |potential| >= 8 then Some(potential) else None
    else None
  }

  const BicTags: seq<string> := [":52A:", ":57A:", ":59:"]

  /** The BIC extracted from the first occurrence of `tag`, if any. */
  function FoundBic(s: string, tag: string): seq<string> {
    var line := TagLine(s, tag);
    if line.Some? then BicCandidate(line.value).ToSeq() else []
  }

  lemma FoundBicIn(s: string, tag: string, fieldContent: string)
    requires TagLine(s, tag) == Some(fieldContent)
    ensures FoundBic(s, tag) == BicCandidate(fieldContent).ToSeq()
  {
  }

  /** The BICs extracted from the first occurrence of each of `tags`, in order. */
  function ExtractedBics(s: string, tags: seq<string>): seq<string> {
    if tags == [] then [] else ExtractedBics(s, tags[..|tags| - 1]) + FoundBic(s, tags[|tags| - 1])
  }

  lemma ExtractedBicsStep(s: string, tags: seq<string>, k: nat)
    requires k < |tags|
    ensures ExtractedBics(s, tags[..k + 1]) == ExtractedBics(s, tags[..k]) + FoundBic(s, tags[k])
  {
    assert tags[..k + 1][..k] == tags[..k];
  }

  /** Every extracted BIC has 8 to 11 characters of [A-Z0-9]. */
  lemma {:induction false} ExtractedBicsShaped(s: string, tags: seq<string>)
    ensures |ExtractedBics(s, tags)| <= |tags|
    ensures forall i :: 0 <= i < |ExtractedBics(s, tags)| ==> BicShaped(ExtractedBics(s, tags)[i])
  {
    if tags != [] {
      ExtractedBicsShaped(s, tags[..|tags| - 1]);
    }
  }

  /** One round of extractBICFields: the BIC after the first occurrence of `pattern`. */
  method FindBic(s: string, pattern: string) returns (found: seq<string>)
    ensures found == FoundBic(s, pattern)
  {
    found := [];
    var index := IndexOf(s, pattern);
    if index != -1 {
      var start := index + |pattern|;
      var end := IndexOfFrom(s, "\n", start);
      if end == -1 {
        end := |s|;
      }
      assert end == LineEnd(s, start);
      var fieldContent := Trim(s[start..end]);
      FoundBicIn(s, pattern, fieldContent);
      if fieldContent != "" && |fieldContent| >= 8 {
        var potentialBic := fieldContent[..if |fieldContent| < 11 then |fieldContent| else 11];
        potentialBic := Filter(potentialBic, IsUpperAlnum);
        if |potentialBic| >= 8 {
          found := [potentialBic];
        }
      }
    }
  }

  /** extractBICFields: one pass over the tags 52A, 57A and 59. */
  method ExtractBicFields(s: string) returns (bics: seq<string>)
    ensures bics == ExtractedBics(s, BicTags)
  {
    bics := [];
    for k := 0 to |BicTags|
      invariant bics == ExtractedBics(s, BicTags[..k])
    {
      var found := FindBic(s, BicTags[k]);
      ExtractedBicsStep(s, BicTags, k);
      bics := bics + found;
    }
    assert BicTags[..|BicTags|] == BicTags;
  }

  /** Field 32A's text: its first six characters are the date, what follows the ninth the amount. */
  function ExtractedDates(s: string): (dates: seq<string>)
    ensures |dates| <= 1 && forall i :: 0 <= i < |dates| ==> |dates[i]| == 6
  {
    var line := TagLine(s, ":32A:");
    if line.Some? && |line.value| >= 6 then [line.value[..6]] else []
  }

  function ExtractedAmounts(s: string): (amounts: seq<string>)
    ensures |amounts| <= 1
  {
    var line := TagLine(s, ":32A:");
    if line.Some? && |line.value| > 9 then [line.value[9..]] else []
  }

  // ---------------------------------------------------------------------------
  // BIC format
  // ---------------------------------------------------------------------------

  const LengthErrorPrefix: string := "Invalid BIC length: "

  function BicLengthError(bic: string): string { LengthErrorPrefix + bic + " (must be 8-11 characters)" }

  function BicDigitError(bic: string): string { "Invalid BIC format: " + bic + " (cannot start with digit)" }

  function BicStructureError(bic: string): string { "Invalid BIC format: " + bic + " (invalid characters or structure)" }

  /** The error one BIC gets: wrong length, then a leading digit, then the pattern. */
  function BicError(bic: string): seq<string> {
    if |bic| < 8 || |bic| > 11 then [BicLengthError(bic)]
    else if IsDigit(bic[0]) then [BicDigitError(bic)]
    else if !MatchesBicPattern(bic) then [BicStructureError(bic)]
    else []
  }

  /** Every BIC error of this validator except the length error. */
  lemma FormatErrorsAreNotLengthErrors(bic: string)
    ensures !StartsWith(BicDigitError(bic), LengthErrorPrefix)
    ensures !StartsWith(BicStructureError(bic), LengthErrorPrefix)
  {
    assert BicDigitError(bic)[12] == 'f' && BicStructureError(bic)[12] == 'f';
    assert LengthErrorPrefix[12] == 'l';
  }

  /** On an extracted BIC the length error never fires, and there is no error exactly when
      the BIC matches the pattern. */
  lemma ShapedBicError(bic: string)
    requires BicShaped(bic)
    ensures BicError(bic) == [] <==> MatchesBicPattern(bic)
    ensures forall e :: e in BicError(bic) ==> !StartsWith(e, LengthErrorPrefix)
  {
    FormatErrorsAreNotLengthErrors(bic);
  }

  /** The errors validateBICFormat reports. */
  function BicFormatErrors(s: string): seq<string> {
    Collect(ExtractedBics(s, BicTags), BicError)
  }

  /** validateBICFormat: at most one error per extracted BIC, never a length error, and
      none at all exactly when every extracted BIC matches the pattern. */
  method ValidateBicFormat(s: string) returns (errors: seq<string>)
    ensures errors == BicFormatErrors(s)
    ensures |errors| <= 3
    ensures errors == [] <==> forall b :: b in ExtractedBics(s, BicTags) ==> MatchesBicPattern(b)
    ensures forall e :: e in errors ==> !StartsWith(e, LengthErrorPrefix)
  {
    var bicFields := ExtractBicFields(s);
    ExtractedBicsShaped(s, BicTags);
    errors := [];
    for i := 0 to |bicFields|
      invariant errors == Collect(bicFields[..i], BicError)
      invariant |errors| <= i
      invariant forall e :: e in errors ==> !StartsWith(e, LengthErrorPrefix)
    {
      var bic := bicFields[i];
      CollectStep(bicFields, BicError, i);
      ShapedBicError(bic);
      if |bic| < 8 || |bic| > 11 {
        errors := errors + [BicLengthError(bic)];
        continue;
      }
      if IsDigit(bic[0]) {
        errors := errors + [BicDigitError(bic)];
        continue;
      }
      if !MatchesBicPattern(bic) {
        errors := errors + [BicStructureError(bic)];
      }
    }
    assert bicFields[..|bicFields|] == bicFields;
    BicFormatErrorsEmpty(s);
  }

  lemma BicFormatErrorsEmpty(s: string)
    ensures BicFormatErrors(s) == [] <==> forall b :: b in ExtractedBics(s, BicTags) ==> MatchesBicPattern(b)
  {
    var bicFields := ExtractedBics(s, BicTags);
    ExtractedBicsShaped(s, BicTags);
    CollectMeaning(bicFields, BicError);
    forall b | b in bicFields ensures BicError(b) == [] <==> MatchesBicPattern(b) {
      ShapedBicError(b);
    }
  }

  // ---------------------------------------------------------------------------
  // Date format
  // ---------------------------------------------------------------------------

  /** isValidDate: month 1..12, day 1..31, February up to the 29th, April, June, September
      and November up to the 30th; false when a part does not parse. */
  function IsValidDate(date: string): bool
    requires |date| >= 6
  {
    var year, month, day := ParsePair(date, 0), ParsePair(date, 2), ParsePair(date, 4);
    if year.None? || month.None? || day.None? then false
    else
      var m, d := month.value, day.value;
      if m < 1 || m > 12 then false
      else if d < 1 || d > 31 then false
      else if m == 2 && d > 29 then false
      else if (m == 4 || m == 6 || m == 9 || m == 11) && d > 30 then false
      else true
  }

  /** On six digits, isValidDate accepts exactly the days of the calendar that allows
      February 29th in every year. */
  lemma IsValidDateCalendar(date: string)
    requires MatchesDatePattern(date)
    ensures IsValidDate(date) <==> 1 <= Month(date) <= 12 && 1 <= Day(date) <= MaxDay(Month(date))
  {
    ParsePairOfDigits(date, 0);
    ParsePairOfDigits(date, 2);
    ParsePairOfDigits(date, 4);
  }

  function DateError(date: string): seq<string> {
    if !MatchesDatePattern(date) then ["Invalid date format: " + date + " (must be YYMMDD)"]
    else if !IsValidDate(date) then ["Invalid date value: " + date]
    else []
  }

  /** The errors validateDateFormat reports. */
  function DateFormatErrors(s: string): seq<string> {
    Collect(ExtractedDates(s), DateError)
  }

  /** validateDateFormat: no error exactly when field 32A has no date, or six digits that
      name a day of the calendar. */
  method ValidateDateFormat(s: string) returns (errors: seq<string>)
    ensures errors == DateFormatErrors(s)
    ensures |errors| <= 1
    ensures errors == [] <==> forall d :: d in ExtractedDates(s) ==>
      MatchesDatePattern(d) && 1 <= Month(d) <= 12 && 1 <= Day(d) <= MaxDay(Month(d))
  {
    var dates := ExtractedDates(s);
    errors := [];
    for i := 0 to |dates|
      invariant errors == Collect(dates[..i], DateError) && |errors| <= i
    {
      var date := dates[i];
      CollectStep(dates, DateError, i);
      if !MatchesDatePattern(date) {
        errors := errors + ["Invalid date format: " + date + " (must be YYMMDD)"];
        continue;
      }
      if !IsValidDate(date) {
        errors := errors + ["Invalid date value: " + date];
      }
    }
    assert dates[..|dates|] == dates;
    DateFormatErrorsEmpty(s);
  }

  lemma DateFormatErrorsEmpty(s: string)
    ensures DateFormatErrors(s) == [] <==> forall d :: d in ExtractedDates(s) ==>
      MatchesDatePattern(d) && 1 <= Month(d) <= 12 && 1 <= Day(d) <= MaxDay(Month(d))
  {
    var dates := ExtractedDates(s);
    CollectMeaning(dates, DateError);
    forall d | d in dates && MatchesDatePattern(d) ensures IsValidDate(d) <==> 1 <= Month(d) <= 12 && 1 <= Day(d) <= MaxDay(Month(d)) {
      IsValidDateCalendar(d);
    }
  }

  // ---------------------------------------------------------------------------
  // Amount format
  // ---------------------------------------------------------------------------

  function AmountError(amount: string): seq<string> {
    if StartsWith(amount, "-") then ["Invalid amount: " + amount + " (negative values not allowed)"]
    else if Contains(amount, "..") || Contains(amount, ",,") then
      ["Invalid amount format: " + amount + " (multiple decimal separators)"]
    else if !MatchesAmountPattern(amount) then ["Invalid amount format: " + amount + " (invalid characters or structure)"]
    else []
  }

  /** The sign and double-separator checks reject nothing the pattern accepts: an amount
      has no error exactly when it matches `\d+([,.]\d{1,2})?`. */
  lemma AmountErrorIffPattern(amount: string)
    ensures AmountError(amount) == [] <==> MatchesAmountPattern(amount)
  {
    if MatchesAmountPattern(amount) {
      AmountPatternExcludes(amount);
    }
  }

  /** The errors validateAmountFormat reports. */
  function AmountFormatErrors(s: string): seq<string> {
    Collect(ExtractedAmounts(s), AmountError)
  }

  /** validateAmountFormat: no error exactly when field 32A has no amount or one that
      matches the amount pattern. */
  method ValidateAmountFormat(s: string) returns (errors: seq<string>)
    ensures errors == AmountFormatErrors(s)
    ensures |errors| <= 1
    ensures errors == [] <==> forall a :: a in ExtractedAmounts(s) ==> MatchesAmountPattern(a)
  {
    var amounts := ExtractedAmounts(s);
    errors := [];
    for i := 0 to |amounts|
      invariant errors == Collect(amounts[..i], AmountError) && |errors| <= i
    {
      var amount := amounts[i];
      CollectStep(amounts, AmountError, i);
      if StartsWith(amount, "-") {
        errors := errors + ["Invalid amount: " + amount + " (negative values not allowed)"];
        continue;
      }
      if Contains(amount, "..") || Contains(amount, ",,") {
        errors := errors + ["Invalid amount format: " + amount + " (multiple decimal separators)"];
        continue;
      }
      if !MatchesAmountPattern(amount) {
        errors := errors + ["Invalid amount format: " + amount + " (invalid characters or structure)"];
      }
    }
    assert amounts[..|amounts|] == amounts;
    AmountFormatErrorsEmpty(s);
  }

  lemma AmountFormatErrorsEmpty(s: string)
    ensures AmountFormatErrors(s) == [] <==> forall a :: a in ExtractedAmounts(s) ==> MatchesAmountPattern(a)
  {
    var amounts := ExtractedAmounts(s);
    CollectMeaning(amounts, AmountError);
    forall a | a in amounts ensures AmountError(a) == [] <==> MatchesAmountPattern(a) {
      AmountErrorIffPattern(a);
    }
  }
}
