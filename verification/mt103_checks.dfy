/**
 * What the MT103 validators and filters share: the character classes and regular
 * expressions they test with, the YYMMDD calendar rules, and the two ways they report,
 * a list of every error or the first failure only.
 */
module Mt103Checks {
  import opened Wrappers
  import opened JavaString
  import opened BigDec

  // ---------------------------------------------------------------------------
  // Characters and patterns
  // ---------------------------------------------------------------------------

  /** The characters the regex `.` does not match: \n, \r, U+0085, U+2028 and U+2029. */
  predicate IsLineTerminator(c: char) {
    c == '\n' || c == '\r' || c as int == 0x85 || c as int == 0x2028 || c as int == 0x2029
  }

  predicate NoLineTerminator(s: string) { forall i :: 0 <= i < |s| ==> !IsLineTerminator(s[i]) }

  /** A non-printable character below 32 other than newline, carriage return and tab. */
  predicate IsControlChar(c: char) { c as int < 32 && c != '\n' && c != '\r' && c != '\t' }

  /** `^[A-Z]{4}[A-Z]{2}[A-Z0-9]{2}([A-Z0-9]{3})?$` (written `[A-Z]{6}…` in one validator). */
  predicate MatchesBicPattern(b: string) {
    (|b| == 8 || |b| == 11)
    && (forall i :: 0 <= i < 6 ==> IsUpper(b[i]))
    && (forall i :: 6 <= i < |b| ==> IsUpperAlnum(b[i]))
  }

  /** `^\d{6}$`. */
  predicate MatchesDatePattern(d: string) { |d| == 6 && AllDigits(d) }

  /** The length of the longest prefix made of digits. */
  function LeadingDigits(s: string): (n: nat)
    ensures n <= |s|
    ensures forall i :: 0 <= i < n ==> IsDigit(s[i])
    ensures n < |s| ==> !IsDigit(s[n])
  {
    if s == [] || !IsDigit(s[0]) then 0 else 1 + LeadingDigits(s[1..])
  }

  /** `^\d+([,.]\d{1,2})?$`. The leading `\d+` can only end at the first non-digit (a
      separator is not a digit), so the first non-digit decides the match. */
  predicate MatchesAmountPattern(a: string) {
    var n := LeadingDigits(a);
    n >= 1 && (n == |a| || ((a[n] == ',' || a[n] == '.') && 1 <= |a| - n - 1 <= 2 && AllDigits(a[n + 1..])))
  }

  lemma {:induction false} LeadingDigitsOfDigitsThen(d: string, rest: string)
    requires AllDigits(d) && (rest == [] || !IsDigit(rest[0]))
    ensures LeadingDigits(d + rest) == |d|
  {
    if d != [] {
      assert (d + rest)[1..] == d[1..] + rest;
      LeadingDigitsOfDigitsThen(d[1..], rest);
    } else {
      assert d + rest == rest;
    }
  }

  /** The amount pattern accepts exactly the shapes `D` and `D,E` / `D.E` with D one or more
      digits and E one or two digits. */
  lemma AmountPatternShapes(d: string, sep: char, e: string)
    requires d != [] && AllDigits(d) && AllDigits(e)
    ensures MatchesAmountPattern(d)
    ensures (sep == ',' || sep == '.') && 1 <= |e| <= 2 ==> MatchesAmountPattern(d + [sep] + e)
    ensures !IsDigit(sep) && MatchesAmountPattern(d + [sep] + e) ==> (sep == ',' || sep == '.') && 1 <= |e| <= 2
  {
    LeadingDigitsOfDigitsThen(d, []);
    assert d + [] == d;
    var a := d + [sep] + e;
    if !IsDigit(sep) {
      assert d + [sep] + e == d + ([sep] + e);
      LeadingDigitsOfDigitsThen(d, [sep] + e);
      assert a[|d|] == sep && a[|d| + 1..] == e;
    }
  }

  /** A string the amount pattern accepts starts with a digit and holds at most one
      separator, so it has no sign and no ".." or ",,". */
  lemma AmountPatternExcludes(a: string)
    requires MatchesAmountPattern(a)
    ensures IsDigit(a[0]) && !StartsWith(a, "-")
    ensures !Contains(a, "..") && !Contains(a, ",,")
  {
    forall i ensures !OccursAt(a, "..", i) && !OccursAt(a, ",,", i) {
      if 0 <= i && i + 2 <= |a| {
        assert a[i..i + 2][0] == a[i] && a[i..i + 2][1] == a[i + 1];
        NeighbourDigit(a, i);
      }
    }
  }

  lemma NeighbourDigit(a: string, i: nat)
    requires MatchesAmountPattern(a) && i + 1 < |a|
    ensures IsDigit(a[i]) || IsDigit(a[i + 1])
  {
    var n := LeadingDigits(a);
    if i == n {
      assert a[i + 1] == a[n + 1..][0];
    } else if i > n {
      assert a[i] == a[n + 1..][i - n - 1];
    }
  }

  // ---------------------------------------------------------------------------
  // Calendar rules for YYMMDD
  // ---------------------------------------------------------------------------

  /** The last day a month may have; February allows the 29th in every year. */
  function MaxDay(month: int): int
    requires 1 <= month <= 12
  {
    [31, 29, 31, 30, 31, 30, 31, 31, 30, 31, 30, 31][month - 1]
  }

  /** Integer.parseInt on the two characters at `i`: None where it throws. */
  function ParsePair(date: string, i: nat): Option<int>
    requires i + 2 <= |date|
  {
    ParseSignedInt(date[i..i + 2])
  }

  /** The month and day of a YYMMDD text of digits. */
  function Month(date: string): nat
    requires MatchesDatePattern(date)
  {
    DigitsValue(date[2..4])
  }

  function Day(date: string): nat
    requires MatchesDatePattern(date)
  {
    DigitsValue(date[4..6])
  }

  /** On digits, Integer.parseInt gives the value of the digits. */
  lemma ParsePairOfDigits(date: string, i: nat)
    requires MatchesDatePattern(date) && i + 2 <= 6
    ensures ParsePair(date, i) == Some(DigitsValue(date[i..i + 2]) as int)
  {
    var pair := date[i..i + 2];
    assert pair[0] == date[i] && pair[1] == date[i + 1];
  }

  // ---------------------------------------------------------------------------
  // Reporting
  // ---------------------------------------------------------------------------

  /** The errors `check` reports for each item, item after item (a loop of `errors.add`). */
  function Collect<T>(items: seq<T>, check: T -> seq<string>): seq<string> {
    if items == [] then [] else Collect(items[..|items| - 1], check) + check(items[|items| - 1])
  }

  lemma CollectStep<T>(items: seq<T>, check: T -> seq<string>, k: nat)
    requires k < |items|
    ensures Collect(items[..k + 1], check) == Collect(items[..k], check) + check(items[k])
  {
    assert items[..k + 1][..k] == items[..k];
  }

  /** No error is collected exactly when no item has one, and every collected error comes
      from some item. */
  lemma {:induction false} CollectMeaning<T>(items: seq<T>, check: T -> seq<string>)
    ensures Collect(items, check) == [] <==> forall i :: 0 <= i < |items| ==> check(items[i]) == []
    ensures forall e :: e in Collect(items, check) ==> exists i :: 0 <= i < |items| && e in check(items[i])
  {
    if items != [] {
      var init := items[..|items| - 1];
      CollectMeaning(init, check);
      forall i | 0 <= i < |init| ensures init[i] == items[i] { }
    }
  }

  /** The first of `items` that `content` does not contain, reported as `prefix + item`;
      None when it contains them all. */
  function FirstMissing(content: string, items: seq<string>, prefix: string): (r: Option<string>)
    ensures r.None? <==> forall k :: 0 <= k < |items| ==> Contains(content, items[k])
    ensures r.Some? ==>
      exists k :: 0 <= k < |items| && !Contains(content, items[k]) && r.value == prefix + items[k]
        && forall j :: 0 <= j < k ==> Contains(content, items[j])
  {
    if items == [] then None
    else if !Contains(content, items[0]) then Some(prefix + items[0])
    else
      var r := FirstMissing(content, items[1..], prefix);
      assert forall k :: 1 <= k < |items| ==> items[k] == items[1..][k - 1];
      r
  }

  /** The check loop over `items` that returns at the first one `content` lacks. */
  method CheckAllPresent(content: string, items: seq<string>, prefix: string) returns (r: Option<string>)
    ensures r == FirstMissing(content, items, prefix)
  {
    for i := 0 to |items|
      invariant FirstMissing(content, items, prefix) == FirstMissing(content, items[i..], prefix)
    {
      assert items[i..][1..] == items[i + 1..];
      if !Contains(content, items[i]) {
        return Some(prefix + items[i]);
      }
    }
    return None;
  }

  /** The first failure `check` reports over `items`, item after item; None when every item
      passes (a loop that returns its first non-null message). */
  function FirstFailure<T>(items: seq<T>, check: T -> Option<string>): (r: Option<string>)
    ensures r.None? <==> forall k :: 0 <= k < |items| ==> check(items[k]).None?
    ensures r.Some? ==>
      exists k :: 0 <= k < |items| && check(items[k]) == r
        && forall j :: 0 <= j < k ==> check(items[j]).None?
  {
    if items == [] then None
    else if check(items[0]).Some? then check(items[0])
    else
      var r := FirstFailure(items[1..], check);
      assert forall k :: 1 <= k < |items| ==> items[k] == items[1..][k - 1];
      r
  }
}
