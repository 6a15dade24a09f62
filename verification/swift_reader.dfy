/**
 * The alert service's report file reader: it splits a `.swift` file into lines, reads the
 * transaction's identifier, amount, bank names and generation time back from the "//"
 * comment header, collects the MT103 text that follows the separator line, pulls fields
 * 20, 32A, 50K, 59, 52A and 57A out of that text, and fills in defaults for what is still
 * missing. The clock, the millisecond counter and the random status draw are parameters;
 * walking the directory and reading the file are not modelled.
 */
module SwiftReader {
  import opened Wrappers
  import opened JavaString
  import opened BigDec
  import opened Clock
  import opened AlertModel
  import SwiftWriter

  /** The statuses setDefaultValues draws from, in list order. */
  const TrxStatus: seq<string> := [
    "RECEIVED", "VALIDATED", "FRAUD_SUSPECTED", "FRAUD_CONFIRMED", "FRAUD_CLEARED", "PROCESSED",
    "REJECTED", "ERROR", "RETRYING", "QUARANTINED", "FORWARDED"]

  // ---------------------------------------------------------------------------
  // Header lines
  // ---------------------------------------------------------------------------

  /** extractValue: the rest of the line after the prefix, trimmed. */
  function ExtractValue(line: string, prefix: string): string
    requires StartsWith(line, prefix)
  {
    Trim(line[|prefix|..])
  }

  /** parseAmount on the text after "// Amount:": the first two space-separated parts are
      the amount and the currency, taken only when there are at least two parts and the
      first one is a number. */
  function ParseAmountValue(t: Transaction, value: string): (r: Transaction)
    ensures var parts := JavaSplit(value, ' ');
      if |parts| >= 2 && Parse(parts[0]).Some?
      then r == t.(amount := Parse(parts[0]), currency := Some(parts[1]))
      else r == t
    ensures r.(amount := t.amount, currency := t.currency) == t
    ensures r != t ==> r.amount.Some? && r.currency.Some?
  {
    var parts := JavaSplit(value, ' ');
    if |parts| >= 2 && Parse(parts[0]).Some? then t.(amount := Parse(parts[0]), currency := Some(parts[1]))
    else t
  }

  predicate HasHeaderPrefix(line: string) {
    StartsWith(line, SwiftWriter.IdLabel) || StartsWith(line, SwiftWriter.AmountLabel) || StartsWith(line, SwiftWriter.FromLabel)
    || StartsWith(line, SwiftWriter.ToLabel) || StartsWith(line, SwiftWriter.GeneratedLabel)
  }

  /** The if-chain of parseSwiftFile over the header prefixes: the transaction with the
      line's value stored, or None when the line has none of the prefixes. */
  function HeaderField(line: string, t: Transaction, now: LocalDateTime): (r: Option<Transaction>)
    ensures r.None? <==> !HasHeaderPrefix(line)
    ensures r.Some? ==> r.value.status == t.status
  {
    if StartsWith(line, SwiftWriter.IdLabel) then Some(t.(transactionId := Some(ExtractValue(line, SwiftWriter.IdLabel))))
    else if StartsWith(line, SwiftWriter.AmountLabel) then Some(ParseAmountValue(t, ExtractValue(line, SwiftWriter.AmountLabel)))
    else if StartsWith(line, SwiftWriter.FromLabel) then Some(t.(fromBankName := Some(ExtractValue(line, SwiftWriter.FromLabel))))
    else if StartsWith(line, SwiftWriter.ToLabel) then Some(t.(toBankName := Some(ExtractValue(line, SwiftWriter.ToLabel))))
    else if StartsWith(line, SwiftWriter.GeneratedLabel) then
      Some(t.(timestamp := Some(ParseTimestamp(ExtractValue(line, SwiftWriter.GeneratedLabel), now))))
    else None
  }

  // ---------------------------------------------------------------------------
  // parseTimestamp
  // ---------------------------------------------------------------------------

  predicate IsLeapYear(year: int) {
    year % 4 == 0 && (year % 100 != 0 || year % 400 == 0)
  }

  function MonthLength(year: int, month: int): int {
    if month == 2 then (if IsLeapYear(year) then 29 else 28)
    else if month == 4 || month == 6 || month == 9 || month == 11 then 30
    else 31
  }

  /** The value of a fixed-width digit group, None when it holds anything but digits. */
  function Digits(text: string, from: nat, width: nat): (r: Option<nat>)
    requires from + width <= |text|
    ensures r.Some? <==> AllDigits(text[from..from + width])
    ensures r.Some? ==> r.value == DigitsValue(text[from..from + width])
  {
    if AllDigits(text[from..from + width]) then Some(DigitsValue(text[from..from + width])) else None
  }

  /** LocalDateTime.parse with "yyyy-MM-dd'T'HH:mm:ss" (micros false) or
      "yyyy-MM-dd'T'HH:mm:ss.SSSSSS" (micros true) and the formatter's default smart
      resolver: a four-digit year of era, a month from 1 to 12, a day from 1 to 31 moved
      back to the month's last day when the month is shorter, hours, minutes and seconds in
      range, and exactly six fraction digits. */
  function ParseLayout(text: string, micros: bool): (r: Option<LocalDateTime>)
    ensures r.Some? ==> Valid(r.value) && 1 <= r.value.day <= MonthLength(r.value.year, r.value.month)
    ensures r.Some? ==> |text| == (if micros then 26 else 19) && r.value.nano % 1000 == 0
    ensures r.Some? && !micros ==> r.value.nano == 0
  {
    if |text| != (if micros then 26 else 19) || text[4] != '-' || text[7] != '-' || text[10] != 'T'
       || text[13] != ':' || text[16] != ':' || (micros && text[19] != '.')
    then None
    else
      var year, month, day := Digits(text, 0, 4), Digits(text, 5, 2), Digits(text, 8, 2);
      var hour, minute, second := Digits(text, 11, 2), Digits(text, 14, 2), Digits(text, 17, 2);
      var fraction := if micros then Digits(text, 20, 6) else Some(0);
      if year.None? || month.None? || day.None? || hour.None? || minute.None? || second.None? || fraction.None?
      then None
      else Assemble(year.value, month.value, day.value, hour.value, minute.value, second.value, fraction.value)
  }

  /** The range checks of the resolver on parsed numbers; a day past the month's end is
      moved back to its last day. */
  function Assemble(year: nat, month: nat, day: nat, hour: nat, minute: nat, second: nat, micros: nat)
    : (r: Option<LocalDateTime>)
    requires micros < Pow10(6)
    ensures r.Some? ==> Valid(r.value) && 1 <= r.value.day <= MonthLength(r.value.year, r.value.month)
    ensures r.Some? ==> r.value.nano == micros * 1000 && r.value.nano % 1000 == 0
    ensures r.Some? <==> 1 <= year && 1 <= month <= 12 && 1 <= day <= 31 && hour <= 23 && minute <= 59 && second <= 59
  {
    if year < 1 || month < 1 || month > 12 || day < 1 || day > 31 || hour > 23 || minute > 59 || second > 59
    then None
    else
      var length := MonthLength(year, month);
      WholeMicros(micros);
      MicrosBelowSecond(micros);
      Some(LocalDateTime(year, month, if day > length then length else day, hour, minute, second, micros * 1000))
  }

  /** A count of microseconds is a whole number of microseconds in nanoseconds. */
  lemma WholeMicros(micros: nat)
    ensures (micros * 1000) % 1000 == 0
  {
    assert micros * 1000 == 0 + 1000 * micros;
  }

  /** Six digits of microseconds stay below one second in nanoseconds. */
  lemma MicrosBelowSecond(micros: nat)
    requires micros < Pow10(6)
    ensures micros * 1000 < 1000000000
  {
    assert Pow10(6) == 1000000 by {
      assert Pow10(3) == 1000;
      Pow10Add(3, 3);
    }
  }

  /** parseTimestamp: the microsecond layout, else the seconds layout, else the clock. */
  function ParseTimestamp(text: string, now: LocalDateTime): (r: LocalDateTime)
    ensures ParseLayout(text, true).Some? ==> r == ParseLayout(text, true).value
    ensures ParseLayout(text, true).None? && ParseLayout(text, false).Some? ==> r == ParseLayout(text, false).value
    ensures ParseLayout(text, true).None? && ParseLayout(text, false).None? ==> r == now
  {
    match ParseLayout(text, true)
    case Some(t) => t
    case None =>
      match ParseLayout(text, false)
      case Some(t) => t
      case None => now
  }

  // ---------------------------------------------------------------------------
  // The line loop of parseSwiftFile
  // ---------------------------------------------------------------------------

  /** The loop's state: the transaction read so far, the MT103 text collected so far and
      whether the separator has been seen. */
  datatype ReadState = ReadState(transaction: Transaction, body: string, inSection: bool)

  const Start: ReadState := ReadState(EmptyTransaction, "", false)

  /** A line the loop passes over: blank, or a comment that is neither a header field nor
      the separator. */
  predicate Ignored(raw: string) {
    var line := Trim(raw);
    line == "" || (StartsWith(line, "//") && !HasHeaderPrefix(line) && line != SwiftWriter.Separator)
  }

  /** The MT103 text with one more line: a line feed goes in front of it unless nothing has
      been collected yet. */
  function Collect(body: string, line: string): string {
    if body == "" then line else body + "\n" + line
  }

  /** A string that differs from `p` at some index of both does not start with `p`. */
  lemma DiffersAt(line: string, p: string, i: nat)
    requires i < |p| && i < |line| && line[i] != p[i]
    ensures !StartsWith(line, p)
  {
  }

  /** A line that starts with `p` does not start with a `q` that differs from `p` at an
      index of both. */
  lemma OtherLabel(line: string, p: string, q: string, i: nat)
    requires StartsWith(line, p) && i < |p| && i < |q| && p[i] != q[i]
    ensures !StartsWith(line, q)
  {
    assert line[i] == line[..|p|][i];
  }

  /** Every header prefix has a blank at index 2. */
  lemma NoHeaderPrefix(line: string)
    requires |line| > 2 && line[2] != ' '
    ensures !HasHeaderPrefix(line)
  {
    DiffersAt(line, SwiftWriter.IdLabel, 2);
    DiffersAt(line, SwiftWriter.AmountLabel, 2);
    DiffersAt(line, SwiftWriter.FromLabel, 2);
    DiffersAt(line, SwiftWriter.ToLabel, 2);
    DiffersAt(line, SwiftWriter.GeneratedLabel, 2);
  }

  lemma PrefixOfPrefix(line: string, p: string, q: string)
    requires StartsWith(line, p) && StartsWith(p, q)
    ensures StartsWith(line, q)
  {
    assert line[..|q|] == line[..|p|][..|q|];
  }

  /** Every header prefix is a comment. */
  lemma HeaderPrefixIsComment(line: string)
    ensures HasHeaderPrefix(line) ==> StartsWith(line, "//")
  {
    assert SwiftWriter.IdLabel == "//" + " Transaction ID:" && SwiftWriter.AmountLabel == "//" + " Amount:";
    assert SwiftWriter.FromLabel == "//" + " From:" && SwiftWriter.ToLabel == "//" + " To:" && SwiftWriter.GeneratedLabel == "//" + " Generated at:";
    if StartsWith(line, SwiftWriter.IdLabel) {
      PrefixOfPrefix(line, SwiftWriter.IdLabel, "//");
    } else if StartsWith(line, SwiftWriter.AmountLabel) {
      PrefixOfPrefix(line, SwiftWriter.AmountLabel, "//");
    } else if StartsWith(line, SwiftWriter.FromLabel) {
      PrefixOfPrefix(line, SwiftWriter.FromLabel, "//");
    } else if StartsWith(line, SwiftWriter.ToLabel) {
      PrefixOfPrefix(line, SwiftWriter.ToLabel, "//");
    } else if StartsWith(line, SwiftWriter.GeneratedLabel) {
      PrefixOfPrefix(line, SwiftWriter.GeneratedLabel, "//");
    }
  }

  lemma SeparatorIsComment()
    ensures StartsWith(SwiftWriter.Separator, "//") && !HasHeaderPrefix(SwiftWriter.Separator)
  {
    assert SwiftWriter.Separator[..2] == "//" + "";
    assert SwiftWriter.Separator[2] == '=';
    NoHeaderPrefix(SwiftWriter.Separator);
  }

  /** One pass of the loop over a raw line. */
  function ReadLine(s: ReadState, raw: string, now: LocalDateTime): (r: ReadState)
    ensures Ignored(raw) ==> r == s
    ensures Trim(raw) == SwiftWriter.Separator ==> r == s.(inSection := true)
    ensures r.inSection <==> s.inSection || Trim(raw) == SwiftWriter.Separator
    ensures s.inSection && Trim(raw) != "" && !StartsWith(Trim(raw), "//") ==>
      r == s.(body := Collect(s.body, Trim(raw)))
    ensures !s.inSection || Trim(raw) == "" || StartsWith(Trim(raw), "//") ==> r.body == s.body
    ensures r.transaction.status == s.transaction.status
  {
    var line := Trim(raw);
    SeparatorIsComment();
    HeaderPrefixIsComment(line);
    if line == "" then s
    else
      var header := HeaderField(line, s.transaction, now);
      if header.None? && line == SwiftWriter.Separator then s.(inSection := true)
      else
        var body := if s.inSection && !StartsWith(line, "//") then Collect(s.body, line) else s.body;
        ReadState(header.GetOr(s.transaction), body, s.inSection)
  }

  /** A line with a header label stores its value and changes nothing else. */
  lemma HeaderLineEffect(s: ReadState, raw: string, now: LocalDateTime)
    requires HasHeaderPrefix(Trim(raw))
    ensures HeaderField(Trim(raw), s.transaction, now).Some?
    ensures ReadLine(s, raw, now) == s.(transaction := HeaderField(Trim(raw), s.transaction, now).value)
  {
    HeaderPrefixIsComment(Trim(raw));
  }

  /** The loop over all lines, in order. */
  function ReadLines(s: ReadState, lines: seq<string>, now: LocalDateTime): (r: ReadState)
    ensures r.transaction.status == s.transaction.status
    decreases |lines|
  {
    if lines == [] then s else ReadLines(ReadLine(s, lines[0], now), lines[1..], now)
  }

  lemma {:induction false} ReadLinesAppend(s: ReadState, a: seq<string>, b: seq<string>, now: LocalDateTime)
    ensures ReadLines(s, a + b, now) == ReadLines(ReadLines(s, a, now), b, now)
    decreases |a|
  {
    if a != [] {
      assert (a + b)[0] == a[0] && (a + b)[1..] == a[1..] + b;
      ReadLinesAppend(ReadLine(s, a[0], now), a[1..], b, now);
    } else {
      assert a + b == b;
    }
  }

  lemma {:induction false} IgnoredLines(s: ReadState, lines: seq<string>, now: LocalDateTime)
    requires forall k :: 0 <= k < |lines| ==> Ignored(lines[k])
    ensures ReadLines(s, lines, now) == s
  {
    if lines != [] {
      assert Ignored(lines[0]);
      IgnoredLines(s, lines[1..], now);
    }
  }

  // ---------------------------------------------------------------------------
  // parseFieldFromMT103: the pattern <code>([^\n:]+(?:\n[^:][^\n]*)*)
  // ---------------------------------------------------------------------------

  /** End of the run of characters other than line feed and colon from `j`. */
  function RunEnd(s: string, j: nat): (k: nat)
    requires j <= |s|
    ensures j <= k <= |s|
    ensures forall i :: j <= i < k ==> s[i] != '\n' && s[i] != ':'
    ensures k < |s| ==> s[k] == '\n' || s[k] == ':'
    decreases |s| - j
  {
    if j == |s| || s[j] == '\n' || s[j] == ':' then j else RunEnd(s, j + 1)
  }

  /** End of the line holding position `j`. */
  function LineEnd(s: string, j: nat): (k: nat)
    requires j <= |s|
    ensures j <= k <= |s|
    ensures forall i :: j <= i < k ==> s[i] != '\n'
    ensures k < |s| ==> s[k] == '\n'
    decreases |s| - j
  {
    if j == |s| || s[j] == '\n' then j else LineEnd(s, j + 1)
  }

  /** The greedy repetition of "a line feed, a character other than a colon, the rest of
      that line": continuation lines are taken until one starts with a colon. */
  function ContinuationEnd(s: string, j: nat): (k: nat)
    requires j <= |s|
    ensures j <= k <= |s|
    ensures k == |s| || s[k] == '\n' || k == j
    ensures k < |s| - 1 && s[k] == '\n' ==> s[k + 1] == ':'
    ensures k == j <==> !(j + 1 < |s| && s[j] == '\n' && s[j + 1] != ':')
    decreases |s| - j
  {
    if j + 1 < |s| && s[j] == '\n' && s[j + 1] != ':' then ContinuationEnd(s, LineEnd(s, j + 2)) else j
  }

  /** The pattern matches at `i`: the code, then at least one character of the value. */
  predicate MatchAt(s: string, code: string, i: nat) {
    i + |code| < |s| && s[i..i + |code|] == code && s[i + |code|] != '\n' && s[i + |code|] != ':'
  }

  /** Matcher.find: the first position from `from` on where the pattern matches. */
  function FindMatch(s: string, code: string, from: nat): (r: Option<nat>)
    requires from <= |s|
    ensures r.Some? ==> (from <= r.value < |s| && MatchAt(s, code, r.value)
      && forall i :: from <= i < r.value ==> !MatchAt(s, code, i))
    ensures r.None? ==> forall i :: from <= i <= |s| ==> !MatchAt(s, code, i)
    decreases |s| - from
  {
    if MatchAt(s, code, from) then Some(from)
    else if from == |s| then None
    else FindMatch(s, code, from + 1)
  }

  /** The value of a field: the first match's group, trimmed; None when nothing matches. */
  function FieldValue(s: string, code: string): (r: Option<string>)
    ensures r.None? <==> forall i :: 0 <= i <= |s| ==> !MatchAt(s, code, i)
  {
    match FindMatch(s, code, 0)
    case None => None
    case Some(i) =>
      var start := i + |code|;
      Some(Trim(s[start..ContinuationEnd(s, RunEnd(s, start))]))
  }

  /** A value the pattern reads from the very start of the text. */
  lemma FieldValueFromStart(s: string, code: string, e: nat, f: nat)
    requires MatchAt(s, code, 0)
    requires |code| <= e <= |s| && RunEnd(s, |code|) == e
    requires ContinuationEnd(s, e) == f
    ensures FieldValue(s, code) == Some(Trim(s[|code|..f]))
  {
  }

  /** The run of a value that holds no line feed and no colon ends where the value does. */
  lemma RunEndOf(s: string, start: nat, end: nat)
    requires start <= end <= |s| && forall i :: start <= i < end ==> s[i] != '\n' && s[i] != ':'
    requires end == |s| || s[end] == '\n'
    ensures RunEnd(s, start) == end
  {
  }

  /** The line of a value that holds no line feed ends where the value does. */
  lemma LineEndOf(s: string, start: nat, end: nat)
    requires start <= end <= |s| && forall i :: start <= i < end ==> s[i] != '\n'
    requires end == |s| || s[end] == '\n'
    ensures LineEnd(s, start) == end
  {
  }

  /** A one-line value at the start of the text, ended by the end of the text or by the
      next field. */
  lemma FieldValueOfOneLine(s: string, code: string, e: nat)
    requires |code| < e <= |s| && MatchAt(s, code, 0)
    requires forall i :: |code| <= i < e ==> s[i] != '\n' && s[i] != ':'
    requires e == |s| || (e + 1 < |s| && s[e] == '\n' && s[e + 1] == ':')
    ensures FieldValue(s, code) == Some(Trim(s[|code|..e]))
  {
    RunEndOf(s, |code|, e);
    FieldValueFromStart(s, code, e, e);
  }

  /** A value of two lines that the next field follows. */
  lemma FieldValueOfTwoLines(s: string, code: string, e: nat, f: nat)
    requires |code| < e && e + 1 < f < |s| - 1 && MatchAt(s, code, 0)
    requires forall i :: |code| <= i < e ==> s[i] != '\n' && s[i] != ':'
    requires s[e] == '\n' && s[e + 1] != ':' && forall i :: e < i < f ==> s[i] != '\n'
    requires s[f] == '\n' && s[f + 1] == ':'
    ensures FieldValue(s, code) == Some(Trim(s[|code|..f]))
  {
    RunEndOf(s, |code|, e);
    LineEndOf(s, e + 2, f);
    assert ContinuationEnd(s, f) == f;
    assert ContinuationEnd(s, e) == f;
    FieldValueFromStart(s, code, e, f);
  }

  /** A one-line value at the end of the text is read trimmed. */
  lemma FieldValueAtEnd(code: string, v: string)
    requires v != "" && '\n' !in v && ':' !in v
    ensures FieldValue(code + v, code) == Some(Trim(v))
  {
    var s := code + v;
    assert s[..|code|] == code && s[|code|..|s|] == v;
    assert forall i :: |code| <= i < |s| ==> s[i] == v[i - |code|];
    FieldValueOfOneLine(s, code, |s|);
  }

  /** A one-line value followed by the next field is read trimmed. */
  lemma FieldValueBeforeField(code: string, v: string, rest: string)
    requires v != "" && '\n' !in v && ':' !in v
    ensures FieldValue(code + v + "\n:" + rest, code) == Some(Trim(v))
  {
    var line := code + v;
    var s := line + "\n:" + rest;
    assert s == code + v + "\n:" + rest;
    var e := |line|;
    assert s[..e] == line && s[e] == '\n' && s[e + 1] == ':';
    assert s[..|code|] == code && s[|code|..e] == v;
    assert forall i :: |code| <= i < e ==> s[i] == v[i - |code|];
    FieldValueOfOneLine(s, code, e);
  }

  /** A one-line value, followed by the end of the text or by the next field, is read
      trimmed. */
  lemma FieldValueOfLine(code: string, v: string, rest: string)
    requires v != "" && '\n' !in v && ':' !in v
    ensures FieldValue(code + v, code) == Some(Trim(v))
    ensures FieldValue(code + v + "\n:" + rest, code) == Some(Trim(v))
  {
    FieldValueAtEnd(code, v);
    FieldValueBeforeField(code, v, rest);
  }

  /** A value running on to a continuation line (one not opening with a colon) takes that
      line in, up to the next field. */
  lemma FieldValueOfLines(code: string, v: string, w: string, rest: string)
    requires v != "" && '\n' !in v && ':' !in v
    requires w != "" && '\n' !in w && w[0] != ':'
    ensures FieldValue(code + v + "\n" + w + "\n:" + rest, code) == Some(Trim(v + "\n" + w))
  {
    var head := code + v + "\n";
    var line := head + w;
    var s := line + "\n:" + rest;
    assert s == code + v + "\n" + w + "\n:" + rest;
    var e := |code| + |v|;
    var f := |line|;
    assert s[..f] == line && s[f] == '\n' && s[f + 1] == ':';
    assert s[..|code|] == code && s[e] == '\n' && s[e + 1] == w[0];
    assert forall i :: |code| <= i < e ==> s[i] == v[i - |code|];
    assert forall i :: e < i < f ==> s[i] == w[i - e - 1];
    assert s[|code|..f] == v + "\n" + w;
    FieldValueOfTwoLines(s, code, e, f);
  }

  // ---------------------------------------------------------------------------
  // parseAdditionalFieldsFromMT103
  // ---------------------------------------------------------------------------

  predicate AmountChar(c: char) { IsDigit(c) || c == '.' }

  /** The 32A amount as cleaned by replaceAll("[^0-9.]", ""): every character other than
      a digit or a point is dropped, the decimal comma included. */
  function CleanAmountAsWritten(amount: string): (r: string)
    ensures forall i :: 0 <= i < |r| ==> AmountChar(r[i])
  {
    Filter(amount, AmountChar)
  }

  /** The 32A amount with the decimal comma read as a point before the other characters are
      dropped. */
  function CleanAmount(amount: string): (r: string)
    ensures forall i :: 0 <= i < |r| ==> AmountChar(r[i])
  {
    Filter(ReplaceChar(amount, ',', '.'), AmountChar)
  }

  /** The 32A handler on a field value cleaned by `clean`: a value longer than nine
      characters gives the currency (characters 7 to 9) and, when the rest cleans to a
      number, the amount. */
  function Apply32AWith(t: Transaction, value: string, clean: string -> string): (r: Transaction)
    ensures |value| <= 9 ==> r == t
    ensures |value| > 9 ==> r.currency == Some(value[6..9])
    ensures |value| > 9 && Parse(clean(value[9..])).Some? ==> r.amount == Parse(clean(value[9..]))
    ensures |value| > 9 && Parse(clean(value[9..])).None? ==> r.amount == t.amount
    ensures r.(currency := t.currency, amount := t.amount) == t
  {
    if |value| > 9 then
      var withCurrency := t.(currency := Some(value[6..9]));
      var parsed := Parse(clean(value[9..]));
      if parsed.Some? then withCurrency.(amount := parsed) else withCurrency
    else t
  }

  /** The first line of a field value, trimmed (50K and 59 keep only the account line). */
  function FirstLine(value: string): (r: Option<string>)
    ensures '\n' !in value ==> r == Some(Trim(value))
  {
    var lines := JavaSplit(value, '\n');
    if |lines| > 0 then Some(Trim(lines[0])) else None
  }

  /** A value whose first line is not empty: that line, trimmed, is the account. */
  lemma FirstLineOfLines(a: string, b: string)
    requires a != "" && '\n' !in a
    ensures FirstLine(a + "\n" + b) == Some(Trim(a))
  {
    var s := a + "\n" + b;
    assert s[|a|] == '\n';
    PiecesConcat(a, b, '\n');
    DropTrailingEmptyKeepsFirst(Pieces(s, '\n'));
  }

  /** The first eight characters of a value longer than eight (52A and 57A). */
  function Bic8(value: string): (r: Option<string>)
    ensures r.Some? <==> |value| > 8
    ensures r.Some? ==> |r.value| == 8 && r.value == value[..8]
  {
    if |value| > 8 then Some(value[..8]) else None
  }

  /** Field 20 gives the transaction identifier. */
  function WithReference(body: string, t: Transaction): (r: Transaction)
    ensures FieldValue(body, ":20:").Some? ==> r.transactionId == FieldValue(body, ":20:")
    ensures FieldValue(body, ":20:").None? ==> r == t
    ensures r.(transactionId := t.transactionId) == t
  {
    match FieldValue(body, ":20:")
    case Some(v) => t.(transactionId := Some(v))
    case None => t
  }

  /** Field 32A gives the currency and the amount. */
  function WithValueDate(body: string, t: Transaction, clean: string -> string): (r: Transaction)
    ensures FieldValue(body, ":32A:").Some? ==> r == Apply32AWith(t, FieldValue(body, ":32A:").value, clean)
    ensures FieldValue(body, ":32A:").None? ==> r == t
    ensures r.(currency := t.currency, amount := t.amount) == t
  {
    match FieldValue(body, ":32A:")
    case Some(v) => Apply32AWith(t, v, clean)
    case None => t
  }

  /** Fields 50K and 59 give the ordering and beneficiary accounts. */
  function WithAccounts(body: string, t: Transaction): (r: Transaction)
    ensures r.fromAccount == if FieldValue(body, ":50K:").Some? && FirstLine(FieldValue(body, ":50K:").value).Some?
      then FirstLine(FieldValue(body, ":50K:").value) else t.fromAccount
    ensures r.toAccount == if FieldValue(body, ":59:").Some? && FirstLine(FieldValue(body, ":59:").value).Some?
      then FirstLine(FieldValue(body, ":59:").value) else t.toAccount
    ensures r.(fromAccount := t.fromAccount, toAccount := t.toAccount) == t
  {
    var from := FieldValue(body, ":50K:");
    var t50 := if from.Some? && FirstLine(from.value).Some? then t.(fromAccount := FirstLine(from.value)) else t;
    var to := FieldValue(body, ":59:");
    if to.Some? && FirstLine(to.value).Some? then t50.(toAccount := FirstLine(to.value)) else t50
  }

  /** Fields 52A and 57A give the ordering and account-with institutions' BICs. */
  function WithInstitutions(body: string, t: Transaction): (r: Transaction)
    ensures r.fromBankSwift == if FieldValue(body, ":52A:").Some? && |FieldValue(body, ":52A:").value| > 8
      then Some(FieldValue(body, ":52A:").value[..8]) else t.fromBankSwift
    ensures r.toBankSwift == if FieldValue(body, ":57A:").Some? && |FieldValue(body, ":57A:").value| > 8
      then Some(FieldValue(body, ":57A:").value[..8]) else t.toBankSwift
    ensures r.(fromBankSwift := t.fromBankSwift, toBankSwift := t.toBankSwift) == t
  {
    var from := FieldValue(body, ":52A:");
    var t52 := if from.Some? && Bic8(from.value).Some? then t.(fromBankSwift := Bic8(from.value)) else t;
    var to := FieldValue(body, ":57A:");
    if to.Some? && Bic8(to.value).Some? then t52.(toBankSwift := Bic8(to.value)) else t52
  }

  /** parseAdditionalFieldsFromMT103 with a given cleaning of the 32A amount: each field
      found overwrites what the header gave; the bank names, the time and the status stay. */
  function ApplyFieldsWith(body: string, t: Transaction, clean: string -> string): (r: Transaction)
    ensures r.status == t.status && r.timestamp == t.timestamp
    ensures r.fromBankName == t.fromBankName && r.toBankName == t.toBankName
    ensures r.transactionId == if FieldValue(body, ":20:").Some? then FieldValue(body, ":20:") else t.transactionId
    ensures FieldValue(body, ":32A:").Some? && |FieldValue(body, ":32A:").value| > 9 ==>
      r.currency == Some(FieldValue(body, ":32A:").value[6..9])
    ensures FieldValue(body, ":32A:").None? ==> r.currency == t.currency && r.amount == t.amount
    ensures FieldValue(body, ":52A:").Some? && |FieldValue(body, ":52A:").value| > 8 ==>
      r.fromBankSwift == Some(FieldValue(body, ":52A:").value[..8])
    ensures FieldValue(body, ":57A:").Some? && |FieldValue(body, ":57A:").value| > 8 ==>
      r.toBankSwift == Some(FieldValue(body, ":57A:").value[..8])
  {
    WithInstitutions(body, WithAccounts(body, WithValueDate(body, WithReference(body, t), clean)))
  }

  /** parseAdditionalFieldsFromMT103 as corrected: the 32A amount keeps its decimal comma
      as a point. */
  function ApplyFields(body: string, t: Transaction): Transaction {
    ApplyFieldsWith(body, t, CleanAmount)
  }

  /** parseAdditionalFieldsFromMT103 as written: the 32A amount loses its decimal comma. */
  function ApplyFieldsAsWritten(body: string, t: Transaction): Transaction {
    ApplyFieldsWith(body, t, CleanAmountAsWritten)
  }

  // ---------------------------------------------------------------------------
  // setDefaultValues
  // ---------------------------------------------------------------------------

  /** End of the run of characters other than '_' from `j`. */
  function NameRunEnd(f: string, j: nat): (k: nat)
    requires j <= |f|
    ensures j <= k <= |f|
    ensures forall i :: j <= i < k ==> f[i] != '_'
    ensures k < |f| ==> f[k] == '_'
    decreases |f| - j
  {
    if j == |f| || f[j] == '_' then j else NameRunEnd(f, j + 1)
  }

  /** The pattern MT103_([^_]+)_ matches at `i`: the literal, at least one character other
      than '_', then '_'. */
  predicate NameMatchAt(f: string, i: nat) {
    i + 6 <= |f| && f[i..i + 6] == "MT103_" && i + 6 < NameRunEnd(f, i + 6) < |f|
  }

  function FindName(f: string, from: nat): (r: Option<nat>)
    requires from <= |f|
    ensures r.Some? ==> (from <= r.value < |f| && NameMatchAt(f, r.value)
      && forall i :: from <= i < r.value ==> !NameMatchAt(f, i))
    ensures r.None? ==> forall i :: from <= i <= |f| ==> !NameMatchAt(f, i)
    decreases |f| - from
  {
    if NameMatchAt(f, from) then Some(from)
    else if from == |f| then None
    else FindName(f, from + 1)
  }

  /** The identifier in a file name: the group of the first match, None when none. */
  function FileNameId(fileName: string): (r: Option<string>)
    ensures r.Some? ==> r.value != "" && '_' !in r.value
    ensures r.None? <==> forall i :: 0 <= i <= |fileName| ==> !NameMatchAt(fileName, i)
  {
    match FindName(fileName, 0)
    case None => None
    case Some(i) => Some(fileName[i + 6..NameRunEnd(fileName, i + 6)])
  }

  /** setDefaultValues: an identifier from the file name (or "UNKNOWN_" and the clock's
      milliseconds), the clock's time, the status the random draw picks, a zero amount and
      "USD", each only where the transaction has none. */
  function WithDefaults(t: Transaction, fileName: string, now: LocalDateTime, millis: int, draw: nat): (r: Transaction)
    requires draw < |TrxStatus|
    ensures t.transactionId.Some? ==> r.transactionId == t.transactionId
    ensures t.transactionId.None? && FileNameId(fileName).Some? ==> r.transactionId == FileNameId(fileName)
    ensures t.transactionId.None? && FileNameId(fileName).None? ==> r.transactionId == Some("UNKNOWN_" + IntToString(millis))
    ensures r.timestamp == Some(t.timestamp.GetOr(now))
    ensures r.status == Some(t.status.GetOr(TrxStatus[draw]))
    ensures r.amount == Some(t.amount.GetOr(Zero)) && r.currency == Some(t.currency.GetOr("USD"))
    ensures r.(transactionId := t.transactionId, timestamp := t.timestamp, status := t.status, amount := t.amount,
               currency := t.currency) == t
  {
    var id := if t.transactionId.Some? then t.transactionId
      else if FileNameId(fileName).Some? then FileNameId(fileName)
      else Some("UNKNOWN_" + IntToString(millis));
    t.(transactionId := id, timestamp := Some(t.timestamp.GetOr(now)), status := Some(t.status.GetOr(TrxStatus[draw])),
       amount := Some(t.amount.GetOr(Zero)), currency := Some(t.currency.GetOr("USD")))
  }

  // ---------------------------------------------------------------------------
  // parseSwiftFile
  // ---------------------------------------------------------------------------

  /** The event parseSwiftFile returns for a file's content and name. */
  function ReadFile(content: string, fileName: string, now: LocalDateTime, millis: int, draw: nat)
    : (r: TransactionWithMt103Event)
    requires draw < |TrxStatus|
    ensures var t := r.transaction;
      t.transactionId.Some? && t.timestamp.Some? && t.status.Some? && t.amount.Some? && t.currency.Some?
    ensures r.transaction.status == Some(TrxStatus[draw])
    ensures r.mt103Content.Some? ==> r.mt103Content.value != ""
  {
    var s := ReadLines(Start, JavaSplit(content, '\n'), now);
    var t := if s.body != "" && !Contains(s.body, "No MT103 content available") then ApplyFields(s.body, s.transaction)
      else s.transaction;
    TransactionWithMt103Event(WithDefaults(t, fileName, now, millis, draw), if s.body == "" then None else Some(s.body))
  }

  /** A field of the MT103 text overrides what the header comments said: the identifier
      is the body's field 20, the currency comes from field 32A and the BICs from 52A and
      57A, whenever the text has them. */
  lemma BodyFieldsWin(content: string, fileName: string, now: LocalDateTime, millis: int, draw: nat)
    requires draw < |TrxStatus|
    ensures var r := ReadFile(content, fileName, now, millis, draw);
      r.mt103Content.Some? && !Contains(r.mt103Content.value, "No MT103 content available") ==>
        var body := r.mt103Content.value;
        (FieldValue(body, ":20:").Some? ==> r.transaction.transactionId == FieldValue(body, ":20:"))
        && (FieldValue(body, ":32A:").Some? && |FieldValue(body, ":32A:").value| > 9 ==>
              r.transaction.currency == Some(FieldValue(body, ":32A:").value[6..9]))
        && (FieldValue(body, ":52A:").Some? && |FieldValue(body, ":52A:").value| > 8 ==>
              r.transaction.fromBankSwift == Some(FieldValue(body, ":52A:").value[..8]))
        && (FieldValue(body, ":57A:").Some? && |FieldValue(body, ":57A:").value| > 8 ==>
              r.transaction.toBankSwift == Some(FieldValue(body, ":57A:").value[..8]))
  {
  }

  /** One pass of parseSwiftFile's loop: the header if-chain, the separator, then the
      MT103 collection into the StringBuilder. */
  method ReadOneLine(transaction: Transaction, mt103: StringBuilder, inSection: bool, raw: string, now: LocalDateTime)
    returns (transaction': Transaction, inSection': bool)
    modifies mt103
    ensures ReadState(transaction', mt103.text, inSection')
         == ReadLine(ReadState(transaction, old(mt103.text), inSection), raw, now)
  {
    var line := Trim(raw);
    SeparatorIsComment();
    HeaderPrefixIsComment(line);
    transaction', inSection' := transaction, inSection;
    if line == "" {
      return;
    }
    if StartsWith(line, SwiftWriter.IdLabel) {
      transaction' := transaction'.(transactionId := Some(ExtractValue(line, SwiftWriter.IdLabel)));
    } else if StartsWith(line, SwiftWriter.AmountLabel) {
      transaction' := ParseAmountValue(transaction', ExtractValue(line, SwiftWriter.AmountLabel));
    } else if StartsWith(line, SwiftWriter.FromLabel) {
      transaction' := transaction'.(fromBankName := Some(ExtractValue(line, SwiftWriter.FromLabel)));
    } else if StartsWith(line, SwiftWriter.ToLabel) {
      transaction' := transaction'.(toBankName := Some(ExtractValue(line, SwiftWriter.ToLabel)));
    } else if StartsWith(line, SwiftWriter.GeneratedLabel) {
      transaction' := transaction'.(timestamp := Some(ParseTimestamp(ExtractValue(line, SwiftWriter.GeneratedLabel), now)));
    } else if line == SwiftWriter.Separator {
      inSection' := true;
      return;
    }
    if inSection && !StartsWith(line, "//") {
      if |mt103.text| > 0 {
        mt103.Append("\n");
      }
      mt103.Append(line);
    }
  }

  /** parseSwiftFile on the file's content and name: the line loop, the MT103 fields when
      there is MT103 text other than the placeholder, then the defaults. */
  method ParseSwiftFile(content: string, fileName: string, now: LocalDateTime, millis: int, draw: nat)
    returns (event: TransactionWithMt103Event)
    requires draw < |TrxStatus|
    ensures event == ReadFile(content, fileName, now, millis, draw)
  {
    var lines := JavaSplit(content, '\n');
    var transaction := EmptyTransaction;
    var mt103 := new StringBuilder();
    var inSection := false;
    var i := 0;
    while i < |lines|
      invariant 0 <= i <= |lines|
      invariant ReadLines(ReadState(transaction, mt103.text, inSection), lines[i..], now) == ReadLines(Start, lines, now)
    {
      assert lines[i..][1..] == lines[i + 1..];
      transaction, inSection := ReadOneLine(transaction, mt103, inSection, lines[i], now);
      i := i + 1;
    }
    var mt103String := mt103.text;
    if mt103String != "" && !Contains(mt103String, "No MT103 content available") {
      transaction := ApplyFields(mt103String, transaction);
    }
    transaction := WithDefaults(transaction, fileName, now, millis, draw);
    event := TransactionWithMt103Event(transaction, if mt103String == "" then None else Some(mt103String));
  }
}
