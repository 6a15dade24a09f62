/**
 * The strict validation service: it runs the eight field and structure checks on an MT103
 * text and declares it valid exactly when none of them reports an error. Saving the
 * result to a file is left out.
 */
module Mt103ValidationService {
  import opened Wrappers
  import opened JavaString
  import opened Mt103Checks
  import opened Mt103FieldValidator
  import Structure = Mt103StructureValidator

  datatype ValidationResult = ValidationResult(valid: bool, errors: seq<string>)

  /** The errors of the eight checks, in the order validateTransaction adds them. */
  function AllErrors(s: string): seq<string> {
    MandatoryFieldErrors(Some(s)) + BicFormatErrors(s) + DateFormatErrors(s) + AmountFormatErrors(s)
    + Structure.MessageStructureErrors(Some(s)) + Structure.FieldStructureErrors(s)
    + Structure.MessageCompletenessErrors(s) + Structure.ControlCharErrors(s)
  }

  /** validateTransaction: None where the source throws (null content reaches
      `indexOf` in the BIC extraction); otherwise every error of the eight checks, and valid
      exactly when there is none. */
  method ValidateTransaction(content: Option<string>) returns (result: Option<ValidationResult>)
    ensures content.None? ==> result.None?
    ensures content.Some? ==>
      result == Some(ValidationResult(AllErrors(content.value) == [], AllErrors(content.value)))
  {
    var errors := MandatoryFieldErrors(content);
    if content.None? {
      return None;
    }
    var s := content.value;
    var bicErrors := ValidateBicFormat(s);
    var dateErrors := ValidateDateFormat(s);
    var amountErrors := ValidateAmountFormat(s);
    errors := errors + bicErrors + dateErrors + amountErrors;
    errors := errors + Structure.MessageStructureErrors(content);
    var fieldErrors := Structure.ValidateFieldStructure(s);
    errors := errors + fieldErrors + Structure.MessageCompletenessErrors(s);
    var characterErrors := Structure.ValidateCharacters(s);
    errors := errors + characterErrors;
    var isValid := errors == [];
    result := Some(ValidationResult(isValid, errors));
  }

  /** A message is valid exactly when every one of the eight checks passes it. */
  lemma AllErrorsEmpty(s: string)
    ensures AllErrors(s) == [] <==>
      MandatoryFieldErrors(Some(s)) == [] && BicFormatErrors(s) == [] && DateFormatErrors(s) == []
      && AmountFormatErrors(s) == [] && Structure.MessageStructureErrors(Some(s)) == []
      && Structure.FieldStructureErrors(s) == [] && Structure.MessageCompletenessErrors(s) == []
      && Structure.ControlCharErrors(s) == []
  {
    ConcatEmpty(MandatoryFieldErrors(Some(s)), BicFormatErrors(s), DateFormatErrors(s), AmountFormatErrors(s),
      Structure.MessageStructureErrors(Some(s)), Structure.FieldStructureErrors(s),
      Structure.MessageCompletenessErrors(s), Structure.ControlCharErrors(s));
  }

  /** A valid message is not empty, holds the tags 20, 23B and 32A and the blocks {1:, {2:,
      {3: and {5:, ends with '}' once trimmed, and has no control character. */
  lemma ValidMessageShape(s: string)
    requires AllErrors(s) == []
    ensures s != "" && Contains(s, ":20:") && Contains(s, ":23B:") && Contains(s, ":32A:")
    ensures Contains(s, "{1:") && Contains(s, "{2:") && Contains(s, "{3:") && Contains(s, "{5:")
    ensures EndsWith(Trim(s), "}")
    ensures forall i :: 0 <= i < |s| ==> !IsControlChar(s[i])
  {
    AllErrorsEmpty(s);
    MandatoryFieldErrorsEmpty(s);
    Structure.MessageStructureErrorsEmpty(s);
    Structure.ControlCharErrorsEmpty(s);
  }

  /** On a valid message, every extracted BIC, date and amount matches its pattern, and the
      date names a day of the calendar. */
  lemma ValidMessageFields(s: string)
    requires AllErrors(s) == []
    ensures forall b :: b in ExtractedBics(s, BicTags) ==> MatchesBicPattern(b)
    ensures forall d :: d in ExtractedDates(s) ==>
      MatchesDatePattern(d) && 1 <= Month(d) <= 12 && 1 <= Day(d) <= MaxDay(Month(d))
    ensures forall a :: a in ExtractedAmounts(s) ==> MatchesAmountPattern(a)
  {
    AllErrorsEmpty(s);
    BicFormatErrorsEmpty(s);
    DateFormatErrorsEmpty(s);
    AmountFormatErrorsEmpty(s);
  }

  lemma ConcatEmpty<T>(a: seq<T>, b: seq<T>, c: seq<T>, d: seq<T>, e: seq<T>, f: seq<T>, g: seq<T>, h: seq<T>)
    ensures a + b + c + d + e + f + g + h == [] <==>
      a == [] && b == [] && c == [] && d == [] && e == [] && f == [] && g == [] && h == []
  {
    assert |a + b + c + d + e + f + g + h| == |a| + |b| + |c| + |d| + |e| + |f| + |g| + |h|;
  }

  /** An empty message fails the mandatory and the structure check with the same message,
      and the completeness check twice. */
  lemma EmptyMessageErrors()
    ensures AllErrors("") == [NullOrEmpty, Structure.NullOrEmpty, Structure.MissingTrailer, Structure.MissingClosingBrace]
  {
    EmptyMessageMandatory();
    EmptyMessageStructure();
    ShortMessageNoFields("");
    ConcatOfEmpty("");
  }

  lemma ConcatOfEmpty(s: string)
    requires MandatoryFieldErrors(Some(s)) == [NullOrEmpty]
    requires BicFormatErrors(s) == [] && DateFormatErrors(s) == [] && AmountFormatErrors(s) == []
    requires Structure.MessageStructureErrors(Some(s)) == [Structure.NullOrEmpty]
    requires Structure.MessageCompletenessErrors(s) == [Structure.MissingTrailer, Structure.MissingClosingBrace]
    requires Structure.FieldStructureErrors(s) == [] && Structure.ControlCharErrors(s) == []
    ensures AllErrors(s) == [NullOrEmpty, Structure.NullOrEmpty, Structure.MissingTrailer, Structure.MissingClosingBrace]
  {
    ConcatOfFour(MandatoryFieldErrors(Some(s)), BicFormatErrors(s), DateFormatErrors(s), AmountFormatErrors(s),
      Structure.MessageStructureErrors(Some(s)), Structure.FieldStructureErrors(s),
      Structure.MessageCompletenessErrors(s), Structure.ControlCharErrors(s),
      NullOrEmpty, Structure.NullOrEmpty, Structure.MissingTrailer, Structure.MissingClosingBrace);
  }

  lemma ConcatOfFour<T>(a: seq<T>, b: seq<T>, c: seq<T>, d: seq<T>, e: seq<T>, f: seq<T>, g: seq<T>, h: seq<T>,
                        x: T, y: T, z: T, w: T)
    requires a == [x] && b == [] && c == [] && d == [] && e == [y] && f == [] && g == [z, w] && h == []
    ensures a + b + c + d + e + f + g + h == [x, y, z, w]
  {
  }

  lemma EmptyMessageMandatory()
    ensures MandatoryFieldErrors(Some("")) == [NullOrEmpty]
  {
  }

  /** The four structure checks on an empty message. */
  lemma EmptyMessageStructure()
    ensures Structure.MessageStructureErrors(Some("")) == [Structure.NullOrEmpty]
    ensures Structure.MessageCompletenessErrors("") == [Structure.MissingTrailer, Structure.MissingClosingBrace]
    ensures Structure.FieldStructureErrors("") == [] && Structure.ControlCharErrors("") == []
  {
    assert Trim("") == "";
    assert JavaSplit("", '\n') == [""];
    assert !Structure.MatchesTagSeparator("", '/');
  }

  /** A text shorter than every tag has no field to extract, hence no BIC, date or amount
      error. */
  lemma ShortMessageNoFields(s: string)
    requires |s| < 4
    ensures BicFormatErrors(s) == [] && DateFormatErrors(s) == [] && AmountFormatErrors(s) == []
  {
    forall tag | tag in BicTags ensures FoundBic(s, tag) == [] {
      assert |tag| >= 4;
      TagLineOfShort(s, tag);
    }
    TagLineOfShort(s, ":32A:");
    ExtractedBicsStep(s, BicTags, 0);
    ExtractedBicsStep(s, BicTags, 1);
    ExtractedBicsStep(s, BicTags, 2);
    assert BicTags[..3] == BicTags;
  }

  lemma TagLineOfShort(s: string, tag: string)
    requires |s| < |tag|
    ensures TagLine(s, tag) == None
  {
    assert forall i :: !OccursAt(s, tag, i);
  }
}
