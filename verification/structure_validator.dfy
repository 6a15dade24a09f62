/**
 * The strict MT103 structure validator: header blocks, field separators, the trailer and
 * control characters. Each check returns the list of every error it finds.
 */
module Mt103StructureValidator {
  import opened Wrappers
  import opened JavaString
  import opened Mt103Checks

  const NullOrEmpty: string := "MT103 content is null or empty"

  const HeaderBlocks: seq<string> := ["{1:", "{2:", "{3:"]

  /** The error for each missing header block, by position in HeaderBlocks. */
  const HeaderErrors: seq<string> :=
    ["Missing header block 1 {1:", "Missing header block 2 {2:", "Missing header block 3 {3:"]

  /** validateMessageStructure: one error for null or empty content, otherwise one error per
      missing header block 1, 2 and 3, in that order. */
  function MessageStructureErrors(content: Option<string>): (errors: seq<string>)
    ensures content.None? || content.value == "" ==> errors == [NullOrEmpty]
    ensures content.Some? && content.value != "" ==>
      |errors| <= 3
      && (errors == [] <==> forall k :: 0 <= k < 3 ==> Contains(content.value, HeaderBlocks[k]))
      && forall k :: 0 <= k < 3 ==> (HeaderErrors[k] in errors <==> !Contains(content.value, HeaderBlocks[k]))
  {
    if content.None? || content.value == "" then [NullOrEmpty]
    else
      var s := content.value;
      assert HeaderErrors[0][21] == '1' && HeaderErrors[1][21] == '2' && HeaderErrors[2][21] == '3';
      (if !Contains(s, HeaderBlocks[0]) then [HeaderErrors[0]] else [])
      + (if !Contains(s, HeaderBlocks[1]) then [HeaderErrors[1]] else [])
      + (if !Contains(s, HeaderBlocks[2]) then [HeaderErrors[2]] else [])
  }

  /** The structure check passes a message exactly when it is not empty and holds the three
      header blocks. */
  lemma MessageStructureErrorsEmpty(s: string)
    ensures MessageStructureErrors(Some(s)) == [] <==> s != "" && Contains(s, "{1:") && Contains(s, "{2:") && Contains(s, "{3:")
  {
    assert HeaderBlocks[0] == "{1:" && HeaderBlocks[1] == "{2:" && HeaderBlocks[2] == "{3:";
  }

  // ---------------------------------------------------------------------------
  // Field separators
  // ---------------------------------------------------------------------------

  /** At `i` stand two digits, an optional upper-case letter and then `sep`. */
  predicate TagWithSeparator(line: string, i: nat, sep: char) {
    i + 2 < |line| && IsDigit(line[i]) && IsDigit(line[i + 1])
    && (line[i + 2] == sep || (i + 3 < |line| && IsUpper(line[i + 2]) && line[i + 3] == sep))
  }

  /** `line.matches(".*[0-9]{2}[A-Z]?" + sep + ".*")`: `.` matches anything but a line
      terminator, so the whole line must be free of them. */
  predicate MatchesTagSeparator(line: string, sep: char) {
    NoLineTerminator(line) && exists i :: 0 <= i < |line| && TagWithSeparator(line, i, sep)
  }

  /** A line the pattern accepts holds the separator, so the `contains(";")` guard in front
      of the pattern never changes the outcome. */
  lemma MatchesTagSeparatorContains(line: string, sep: char)
    requires MatchesTagSeparator(line, sep)
    ensures sep in line
  {
    var i :| 0 <= i < |line| && TagWithSeparator(line, i, sep);
    if line[i + 2] == sep {
      assert line[i + 2] in line;
    } else {
      assert line[i + 3] in line;
    }
  }

  const DoubleColonError: string := "Invalid double colon '::' found in message"

  function SemicolonLineError(line: string): seq<string> {
    if Contains(line, ";") && MatchesTagSeparator(line, ';') then
      ["Invalid field separator ';' found instead of ':' in: " + Trim(line)]
    else []
  }

  function MissingColonLineError(line: string): seq<string> {
    if MatchesTagSeparator(line, '/') && !Contains(line, ":") then ["Missing colon in field: " + Trim(line)] else []
  }

  /** The semicolon errors: only looked for when the message has both ';' and ':'. */
  function SemicolonErrors(s: string): seq<string> {
    if Contains(s, ";") && Contains(s, ":") then Collect(JavaSplit(s, '\n'), SemicolonLineError) else []
  }

  /** The errors validateFieldStructure reports. */
  function FieldStructureErrors(s: string): seq<string> {
    SemicolonErrors(s) + (if Contains(s, "::") then [DoubleColonError] else [])
    + Collect(JavaSplit(s, '\n'), MissingColonLineError)
  }

  /** The first loop of validateFieldStructure: a tag followed by ';' on a line. */
  method SemicolonLines(lines: seq<string>) returns (errors: seq<string>)
    ensures errors == Collect(lines, SemicolonLineError)
  {
    errors := [];
    for i := 0 to |lines|
      invariant errors == Collect(lines[..i], SemicolonLineError)
    {
      var line := lines[i];
      CollectStep(lines, SemicolonLineError, i);
      if Contains(line, ";") && MatchesTagSeparator(line, ';') {
        errors := errors + ["Invalid field separator ';' found instead of ':' in: " + Trim(line)];
      }
    }
    assert lines[..|lines|] == lines;
  }

  /** The last loop of validateFieldStructure: a tag followed by '/' on a line without ':'. */
  method MissingColonLines(lines: seq<string>) returns (errors: seq<string>)
    ensures errors == Collect(lines, MissingColonLineError)
  {
    errors := [];
    for i := 0 to |lines|
      invariant errors == Collect(lines[..i], MissingColonLineError)
    {
      var line := lines[i];
      CollectStep(lines, MissingColonLineError, i);
      if MatchesTagSeparator(line, '/') && !Contains(line, ":") {
        errors := errors + ["Missing colon in field: " + Trim(line)];
      }
    }
    assert lines[..|lines|] == lines;
  }

  /** validateFieldStructure: the semicolon lines, then the double colon, then the lines with
      a tag and a slash but no colon. */
  method ValidateFieldStructure(s: string) returns (errors: seq<string>)
    ensures errors == FieldStructureErrors(s)
  {
    errors := [];
    if Contains(s, ";") && Contains(s, ":") {
      errors := SemicolonLines(JavaSplit(s, '\n'));
    }
    if Contains(s, "::") {
      errors := errors + [DoubleColonError];
    }
    var missingColon := MissingColonLines(JavaSplit(s, '\n'));
    errors := errors + missingColon;
  }

  /** The field structure is clean exactly when there is no "::", no line with a tag and a
      slash but no colon, and, when the message has both ';' and ':', no line with a tag
      followed by ';'. */
  lemma FieldStructureErrorsEmpty(s: string)
    ensures FieldStructureErrors(s) == [] <==>
      !Contains(s, "::")
      && (forall line :: line in JavaSplit(s, '\n') ==> MissingColonLineError(line) == [])
      && (Contains(s, ";") && Contains(s, ":") ==> forall line :: line in JavaSplit(s, '\n') ==> SemicolonLineError(line) == [])
  {
    var lines := JavaSplit(s, '\n');
    CollectNone(lines, SemicolonLineError);
    CollectNone(lines, MissingColonLineError);
    var semicolon := SemicolonErrors(s);
    var double := if Contains(s, "::") then [DoubleColonError] else [];
    var missing := Collect(lines, MissingColonLineError);
    assert |FieldStructureErrors(s)| == |semicolon| + |double| + |missing|;
  }

  /** No error is collected exactly when every item passes the check. */
  lemma CollectNone<T>(items: seq<T>, check: T -> seq<string>)
    ensures Collect(items, check) == [] <==> forall x :: x in items ==> check(x) == []
  {
    CollectMeaning(items, check);
  }

  // ---------------------------------------------------------------------------
  // Completeness and characters
  // ---------------------------------------------------------------------------

  const MissingTrailer: string := "Missing trailer block {5:" + " - message appears to be truncated"
  const MissingClosingBrace: string := "Message appears to be truncated" + " - missing closing brace"

  /** validateMessageCompleteness: the trailer block must be present and the trimmed
      message must end with '}'. */
  function MessageCompletenessErrors(s: string): (errors: seq<string>)
    ensures errors == [] <==> Contains(s, "{5:") && EndsWith(Trim(s), "}")
    ensures MissingTrailer in errors <==> !Contains(s, "{5:")
    ensures MissingClosingBrace in errors <==> !EndsWith(Trim(s), "}")
  {
    assert MissingTrailer[1] == 'i' && MissingClosingBrace[1] == 'e';
    (if !Contains(s, "{5:") then [MissingTrailer] else [])
    + (if !EndsWith(Trim(s), "}") then [MissingClosingBrace] else [])
  }

  function ControlCharError(i: nat, c: char): string {
    "Invalid control character found at position " + IntToString(i) + " (ASCII code: " + IntToString(c as int) + ")"
  }

  /** The errors validateCharacters reports: one per control character, by position. */
  function ControlCharErrors(s: string): seq<string> {
    if s == [] then []
    else
      var i := |s| - 1;
      ControlCharErrors(s[..i]) + (if IsControlChar(s[i]) then [ControlCharError(i, s[i])] else [])
  }

  /** There is an error exactly when there is a control character, and at most one per
      position. */
  lemma {:induction false} ControlCharErrorsEmpty(s: string)
    ensures ControlCharErrors(s) == [] <==> forall i :: 0 <= i < |s| ==> !IsControlChar(s[i])
    ensures |ControlCharErrors(s)| <= |s|
  {
    if s != [] {
      var init := s[..|s| - 1];
      ControlCharErrorsEmpty(init);
      assert forall i :: 0 <= i < |init| ==> init[i] == s[i];
    }
  }

  /** Every error names a control character and its position, and every control character
      is named. */
  lemma {:induction false} ControlCharErrorsNamed(s: string)
    ensures forall e :: e in ControlCharErrors(s) ==> exists i :: 0 <= i < |s| && IsControlChar(s[i]) && e == ControlCharError(i, s[i])
    ensures forall i :: 0 <= i < |s| && IsControlChar(s[i]) ==> ControlCharError(i, s[i]) in ControlCharErrors(s)
  {
    if s != [] {
      var init := s[..|s| - 1];
      ControlCharErrorsNamed(init);
      assert forall i :: 0 <= i < |init| ==> init[i] == s[i];
    }
  }

  /** validateCharacters: a scan over every position. */
  method ValidateCharacters(s: string) returns (errors: seq<string>)
    ensures errors == ControlCharErrors(s)
  {
    errors := [];
    for i := 0 to |s|
      invariant errors == ControlCharErrors(s[..i])
    {
      var c := s[i];
      assert s[..i + 1][..i] == s[..i];
      if c as int < 32 && c != '\n' && c != '\r' && c != '\t' {
        errors := errors + [ControlCharError(i, c)];
      }
    }
    assert s[..|s|] == s;
  }
}
