/**
 * The parts of java.lang.String, Character, StringBuilder and the JDK number
 * printing that the services rely on, written out on `seq<char>`.
 * Case mapping and the character classes are the ASCII / Latin-1 ones.
 */
module JavaString {

  // ---------------------------------------------------------------------------
  // Character classes
  // ---------------------------------------------------------------------------

  predicate IsDigit(c: char) { '0' <= c <= '9' }

  predicate IsUpper(c: char) { 'A' <= c <= 'Z' }

  predicate IsLower(c: char) { 'a' <= c <= 'z' }

  /** Character.isLetter, restricted to ASCII letters. */
  predicate IsLetter(c: char) { IsUpper(c) || IsLower(c) }

  /** The class `[A-Z0-9]`. */
  predicate IsUpperAlnum(c: char) { IsUpper(c) || IsDigit(c) }

  /** The regex class `\s`: space, \t, \n, \x0B, \f, \r. */
  predicate IsRegexSpace(c: char) {
    c == ' ' || c == '\t' || c == '\n' || c as int == 11 || c as int == 12 || c == '\r'
  }

  /** Character.isWhitespace (used by String.isBlank). */
  predicate IsJavaWhitespace(c: char) {
    var n := c as int;
    (9 <= n <= 13) || (28 <= n <= 32) || n == 0x1680 || (0x2000 <= n <= 0x2006)
    || (0x2008 <= n <= 0x200A) || n == 0x2028 || n == 0x2029 || n == 0x205F || n == 0x3000
  }

  /** String.isBlank: empty or whitespace only. */
  predicate IsBlank(s: string) { forall i :: 0 <= i < |s| ==> IsJavaWhitespace(s[i]) }

  function DigitChar(d: nat): (c: char)
    requires d < 10
    ensures IsDigit(c)
  {
    ('0' as int + d) as char
  }

  function DigitValue(c: char): (d: nat)
    requires IsDigit(c)
    ensures d < 10 && DigitChar(d) == c
  {
    c as int - '0' as int
  }

  predicate AllDigits(s: string) { forall i :: 0 <= i < |s| ==> IsDigit(s[i]) }

  // ---------------------------------------------------------------------------
  // String.trim
  // ---------------------------------------------------------------------------

  function TrimStart(s: string): (r: string)
    ensures |r| <= |s|
    ensures r == [] || r[0] > ' '
  {
    if s == [] || s[0] > ' ' then s else TrimStart(s[1..])
  }

  function TrimEnd(s: string): (r: string)
    ensures |r| <= |s| && r == s[..|r|]
    ensures r == [] || r[|r| - 1] > ' '
    ensures forall i :: |r| <= i < |s| ==> s[i] <= ' '
  {
    if s == [] || s[|s| - 1] > ' ' then s else TrimEnd(s[..|s| - 1])
  }

  /** String.trim: drops every character up to U+0020 from both ends. */
  function Trim(s: string): (r: string)
    ensures |r| <= |s|
    ensures r == [] || (r[0] > ' ' && r[|r| - 1] > ' ')
  {
    TrimEnd(TrimStart(s))
  }

  /** A string that starts and ends with a visible character is its own trim. */
  lemma TrimOfTrimmed(s: string)
    requires s == [] || (s[0] > ' ' && s[|s| - 1] > ' ')
    ensures Trim(s) == s
  {
  }

  /** Blanks in front of a string do not survive trimming. */
  lemma {:induction false} TrimBlankPrefix(p: string, s: string)
    requires forall i :: 0 <= i < |p| ==> p[i] <= ' '
    ensures Trim(p + s) == Trim(s)
  {
    if p != [] {
      var t := p + s;
      assert t[0] == p[0] && t[1..] == p[1..] + s;
      assert TrimStart(t) == TrimStart(p[1..] + s);
      TrimBlankPrefix(p[1..], s);
    } else {
      assert p + s == s;
    }
  }

  /** Trimming a line that starts with a visible prefix keeps the prefix. */
  lemma TrimVisiblePrefix(p: string, s: string)
    requires p != [] && p[0] > ' ' && p[|p| - 1] > ' '
    ensures |Trim(p + s)| >= |p| && Trim(p + s)[..|p|] == p
    ensures Trim(Trim(p + s)[|p|..]) == Trim(s)
  {
    var t := p + s;
    assert TrimStart(t) == t;
    var e := TrimEnd(t);
    assert e == t[..|e|];
    assert t[|p| - 1] == p[|p| - 1];
    assert |e| >= |p|;
    assert e[..|p|] == p;
    var rest := e[|p|..];
    assert rest == s[..|rest|];
    assert forall i :: |rest| <= i < |s| ==> s[i] <= ' ' by {
      forall i | |rest| <= i < |s| ensures s[i] <= ' ' {
        assert t[|p| + i] == s[i];
      }
    }
    TrimDropsBlankTail(s, |rest|);
  }

  /** Cutting off blanks at the end does not change the trim. */
  lemma {:induction false} TrimDropsBlankTail(s: string, k: nat)
    requires k <= |s|
    requires forall i :: k <= i < |s| ==> s[i] <= ' '
    ensures Trim(s[..k]) == Trim(s)
    decreases |s| - k
  {
    if k == |s| {
      assert s[..k] == s;
    } else {
      TrimDropsBlankTail(s[..|s| - 1], k);
      assert s[..|s| - 1][..k] == s[..k];
      TrimEndOfLastBlank(s);
    }
  }

  lemma {:induction false} TrimStartSuffix(s: string)
    ensures TrimStart(s) == s[|s| - |TrimStart(s)|..]
    ensures forall i :: 0 <= i < |s| - |TrimStart(s)| ==> s[i] <= ' '
  {
    if s != [] && s[0] <= ' ' {
      TrimStartSuffix(s[1..]);
    }
  }

  lemma TrimEndOfLastBlank(s: string)
    requires s != [] && s[|s| - 1] <= ' '
    ensures Trim(s) == Trim(s[..|s| - 1])
  {
    var a := TrimStart(s);
    TrimStartSuffix(s);
    if a == [] {
      assert forall i :: 0 <= i < |s| ==> s[i] <= ' ';
      TrimStartAllBlank(s[..|s| - 1]);
    } else {
      assert a[|a| - 1] == s[|s| - 1];
      TrimStartDropLast(s);
    }
  }

  /** A string with a visible character does not trim to nothing. */
  lemma TrimVisible(s: string, i: nat)
    requires i < |s| && s[i] > ' '
    ensures Trim(s) != []
  {
    var t := TrimStart(s);
    TrimStartSuffix(s);
    var k := |s| - |t|;
    assert t[i - k] == s[i];
  }

  lemma {:induction false} TrimStartAllBlank(s: string)
    requires forall i :: 0 <= i < |s| ==> s[i] <= ' '
    ensures TrimStart(s) == []
  {
    if s != [] {
      TrimStartAllBlank(s[1..]);
    }
  }

  lemma {:induction false} TrimStartDropLast(s: string)
    requires s != [] && TrimStart(s) != []
    ensures TrimStart(s[..|s| - 1]) == TrimStart(s)[..|TrimStart(s)| - 1]
  {
    if s[0] <= ' ' {
      assert s[1..][..|s[1..]| - 1] == s[..|s| - 1][1..];
      TrimStartDropLast(s[1..]);
    }
  }

  // ---------------------------------------------------------------------------
  // Searching
  // ---------------------------------------------------------------------------

  predicate StartsWith(s: string, p: string) { |p| <= |s| && s[..|p|] == p }

  predicate EndsWith(s: string, p: string) { |p| <= |s| && s[|s| - |p|..] == p }

  /** `p` occurs in `s` at position `i`. */
  predicate OccursAt(s: string, p: string, i: int) {
    0 <= i && i + |p| <= |s| && s[i..i + |p|] == p
  }

  /** String.indexOf(p, from): the first occurrence at or after `from`, or -1. */
  function IndexOfFrom(s: string, p: string, from: nat): (r: int)
    requires from <= |s|
    ensures r == -1 || (from <= r && OccursAt(s, p, r))
    ensures r == -1 ==> forall i :: from <= i ==> !OccursAt(s, p, i)
    ensures r != -1 ==> forall i :: from <= i < r ==> !OccursAt(s, p, i)
    decreases |s| - from
  {
    if from + |p| > |s| then -1
    else if s[from..from + |p|] == p then from
    else if from == |s| then -1
    else IndexOfFrom(s, p, from + 1)
  }

  /** String.indexOf(p). */
  function IndexOf(s: string, p: string): (r: int)
    ensures r == -1 || OccursAt(s, p, r)
    ensures r == -1 <==> forall i :: !OccursAt(s, p, i)
    ensures r != -1 ==> forall i :: 0 <= i < r ==> !OccursAt(s, p, i)
  {
    IndexOfFrom(s, p, 0)
  }

  /** String.contains. */
  predicate Contains(s: string, p: string) { IndexOf(s, p) != -1 }

  lemma ContainsAt(s: string, p: string, i: int)
    requires OccursAt(s, p, i)
    ensures Contains(s, p)
  {
  }

  /** Any occurrence in a part is an occurrence in the whole. */
  lemma OccursInConcat(a: string, b: string, c: string, p: string, i: int)
    requires OccursAt(b, p, i)
    ensures OccursAt(a + b + c, p, |a| + i)
  {
    assert (a + b + c)[|a| + i..|a| + i + |p|] == b[i..i + |p|];
  }

  // ---------------------------------------------------------------------------
  // Character-wise rewriting
  // ---------------------------------------------------------------------------

  /** The characters of `s` that satisfy `keep`, in order (a `replaceAll("[^…]", "")`). */
  function Filter(s: string, keep: char -> bool): (r: string)
    ensures |r| <= |s|
    ensures forall i :: 0 <= i < |r| ==> keep(r[i])
  {
    if s == [] then [] else (if keep(s[0]) then [s[0]] else []) + Filter(s[1..], keep)
  }

  lemma {:induction false} FilterKeepsAll(s: string, keep: char -> bool)
    requires forall i :: 0 <= i < |s| ==> keep(s[i])
    ensures Filter(s, keep) == s
  {
    if s != [] {
      FilterKeepsAll(s[1..], keep);
      assert [s[0]] + s[1..] == s;
    }
  }

  lemma {:induction false} FilterConcat(a: string, b: string, keep: char -> bool)
    ensures Filter(a + b, keep) == Filter(a, keep) + Filter(b, keep)
  {
    if a != [] {
      assert (a + b)[1..] == a[1..] + b;
      FilterConcat(a[1..], b, keep);
    } else {
      assert a + b == b;
    }
  }

  function UpperChar(c: char): char { if IsLower(c) then (c as int - 32) as char else c }

  function LowerChar(c: char): char { if IsUpper(c) then (c as int + 32) as char else c }

  /** String.toUpperCase on ASCII letters. */
  function ToUpper(s: string): (r: string)
    ensures |r| == |s| && forall i :: 0 <= i < |s| ==> r[i] == UpperChar(s[i])
  {
    if s == [] then [] else [UpperChar(s[0])] + ToUpper(s[1..])
  }

  /** String.toLowerCase on ASCII letters. */
  function ToLower(s: string): (r: string)
    ensures |r| == |s| && forall i :: 0 <= i < |s| ==> r[i] == LowerChar(s[i])
  {
    if s == [] then [] else [LowerChar(s[0])] + ToLower(s[1..])
  }

  /** String.replace(a, b) for single characters. */
  function ReplaceChar(s: string, a: char, b: char): (r: string)
    ensures |r| == |s|
    ensures forall i :: 0 <= i < |s| ==> r[i] == (if s[i] == a then b else s[i])
  {
    if s == [] then [] else [if s[0] == a then b else s[0]] + ReplaceChar(s[1..], a, b)
  }

  /** Number of positions of `s` holding `c`. */
  function CountChar(s: string, c: char): nat {
    if s == [] then 0 else (if s[0] == c then 1 else 0) + CountChar(s[1..], c)
  }

  /** The longest prefix of `s` holding no `\s` character (the first word of `split("\\s+")`). */
  function FirstWord(s: string): (r: string)
    ensures |r| <= |s| && r == s[..|r|]
    ensures forall i :: 0 <= i < |r| ==> !IsRegexSpace(r[i])
    ensures |r| < |s| ==> IsRegexSpace(s[|r|])
  {
    if s == [] || IsRegexSpace(s[0]) then [] else [s[0]] + FirstWord(s[1..])
  }

  /** The part of `s` in front of the first `c`, or all of it. */
  function UpTo(s: string, c: char): (r: string)
    ensures |r| <= |s| && r == s[..|r|] && c !in r
    ensures |r| < |s| ==> s[|r|] == c
  {
    if s == [] || s[0] == c then [] else [s[0]] + UpTo(s[1..], c)
  }

  // ---------------------------------------------------------------------------
  // String.split on a single-character separator
  // ---------------------------------------------------------------------------

  /** All pieces between occurrences of `sep`, empty ones included. */
  function Pieces(s: string, sep: char): (r: seq<string>)
    ensures |r| >= 1
    ensures forall k :: 0 <= k < |r| ==> sep !in r[k]
    ensures r[0] == UpTo(s, sep)
  {
    if s == [] then [""]
    else if s[0] == sep then [""] + Pieces(s[1..], sep)
    else
      var rest := Pieces(s[1..], sep);
      [[s[0]] + rest[0]] + rest[1..]
  }

  lemma PiecesNoSep(s: string, sep: char)
    requires sep !in s
    ensures Pieces(s, sep) == [s]
  {
    if s != [] {
      PiecesNoSep(s[1..], sep);
      assert [s[0]] + s[1..] == s;
    }
  }

  lemma PiecesConcat(a: string, b: string, sep: char)
    requires sep !in a
    ensures Pieces(a + [sep] + b, sep) == [a] + Pieces(b, sep)
  {
    if a == [] {
      assert (a + [sep] + b)[1..] == b;
    } else {
      assert (a + [sep] + b)[1..] == a[1..] + [sep] + b;
      PiecesConcat(a[1..], b, sep);
      assert [a[0]] + a[1..] == a;
    }
  }

  function DropTrailingEmpty(r: seq<string>): (t: seq<string>)
    ensures |t| <= |r| && t == r[..|t|]
    ensures t == [] || t[|t| - 1] != ""
  {
    if r == [] || r[|r| - 1] != "" then r else DropTrailingEmpty(r[..|r| - 1])
  }

  /** Pieces ending in a non-empty one lose nothing. */
  lemma DropTrailingEmptyNoop(init: seq<string>, tail: seq<string>)
    requires tail != [] && tail[|tail| - 1] != ""
    ensures DropTrailingEmpty(init + tail) == init + tail
  {
    var all := init + tail;
    assert all[|all| - 1] == tail[|tail| - 1];
  }

  /** A first piece that is not empty is never dropped. */
  lemma {:induction false} DropTrailingEmptyKeepsFirst(r: seq<string>)
    requires r != [] && r[0] != ""
    ensures DropTrailingEmpty(r) != [] && DropTrailingEmpty(r)[0] == r[0]
  {
    if r[|r| - 1] == "" {
      DropTrailingEmptyKeepsFirst(r[..|r| - 1]);
    }
  }

  /** String.split(sep): with no separator the string itself, else the pieces without trailing empties. */
  function JavaSplit(s: string, sep: char): (r: seq<string>)
    ensures sep !in s ==> r == [s]
  {
    if sep !in s then [s] else DropTrailingEmpty(Pieces(s, sep))
  }

  /** Joining lines with a separator (StringBuilder appends with a separator between items). */
  function Join(lines: seq<string>, sep: string): string {
    if lines == [] then "" else if |lines| == 1 then lines[0] else lines[0] + sep + Join(lines[1..], sep)
  }

  // ---------------------------------------------------------------------------
  // Numbers as text
  // ---------------------------------------------------------------------------

  function Pow10(n: nat): (r: nat)
    ensures r >= 1
  {
    if n == 0 then 1 else 10 * Pow10(n - 1)
  }

  lemma Pow10Add(a: nat, b: nat)
    ensures Pow10(a + b) == Pow10(a) * Pow10(b)
  {
    if a > 0 {
      Pow10Add(a - 1, b);
    }
  }

  /** Value of a string of decimal digits, most significant first. */
  function DigitsValue(s: string): (v: nat)
    requires AllDigits(s)
    ensures v < Pow10(|s|)
  {
    if s == [] then 0
    else
      var d, p, rest := DigitValue(s[0]), Pow10(|s| - 1), DigitsValue(s[1..]);
      LeadingDigitBound(d, p, rest);
      d * p + rest
  }

  lemma LeadingDigitBound(d: nat, p: nat, rest: nat)
    requires d < 10 && rest < p
    ensures d * p + rest < 10 * p
  {
    assert d * p <= 9 * p;
  }

  lemma {:induction false} DigitsValueConcat(a: string, b: string)
    requires AllDigits(a) && AllDigits(b)
    ensures AllDigits(a + b)
    ensures DigitsValue(a + b) == DigitsValue(a) * Pow10(|b|) + DigitsValue(b)
  {
    var t := a + b;
    assert AllDigits(t) by {
      forall i | 0 <= i < |t| ensures IsDigit(t[i]) {
        if i < |a| { assert t[i] == a[i]; } else { assert t[i] == b[i - |a|]; }
      }
    }
    if a == [] {
      assert t == b;
    } else {
      assert t[0] == a[0] && t[1..] == a[1..] + b;
      DigitsValueConcat(a[1..], b);
      Pow10Add(|a| - 1, |b|);
      var d, x, y := DigitValue(a[0]), Pow10(|a| - 1), Pow10(|b|);
      assert DigitsValue(t) == d * Pow10(|t| - 1) + DigitsValue(a[1..] + b);
      assert Pow10(|t| - 1) == x * y;
      assert DigitsValue(a) == d * x + DigitsValue(a[1..]);
      Distribute(d, x, y, DigitsValue(a[1..]), DigitsValue(b));
    }
  }

  lemma Distribute(d: int, x: int, y: int, v: int, w: int)
    ensures d * (x * y) + (v * y + w) == (d * x + v) * y + w
  {
  }

  function Zeros(n: nat): (r: string)
    ensures |r| == n && forall i :: 0 <= i < n ==> r[i] == '0'
  {
    if n == 0 then "" else "0" + Zeros(n - 1)
  }

  lemma {:induction false} DigitsValueLeadingZeros(n: nat, s: string)
    requires AllDigits(s)
    ensures AllDigits(Zeros(n) + s) && DigitsValue(Zeros(n) + s) == DigitsValue(s)
  {
    if n > 0 {
      var t := Zeros(n) + s;
      assert t[0] == '0' && t[1..] == Zeros(n - 1) + s;
      DigitsValueLeadingZeros(n - 1, s);
      assert AllDigits(t) by {
        forall i | 0 <= i < |t| ensures IsDigit(t[i]) {
          if i > 0 { assert t[i] == t[1..][i - 1]; }
        }
      }
    } else {
      assert Zeros(n) + s == s;
    }
  }

  /** Decimal text of a natural number, without leading zeros (Long.toString). */
  function NatToString(n: nat): (r: string)
    ensures |r| >= 1 && AllDigits(r)
    ensures |r| == 1 || r[0] != '0'
  {
    if n < 10 then [DigitChar(n)] else NatToString(n / 10) + [DigitChar(n % 10)]
  }

  lemma {:induction false} NatToStringValue(n: nat)
    ensures DigitsValue(NatToString(n)) == n
  {
    if n >= 10 {
      NatToStringValue(n / 10);
      DigitsValueConcat(NatToString(n / 10), [DigitChar(n % 10)]);
    }
  }

  /** A number below 10^k needs at most k digits. */
  lemma {:induction false} NatToStringLength(n: nat, k: nat)
    requires k >= 1 && n < Pow10(k)
    ensures |NatToString(n)| <= k
  {
    if n >= 10 {
      assert k >= 2;
      NatToStringLength(n / 10, k - 1);
    }
  }

  lemma {:induction false} Pow10Monotone(a: nat, b: nat)
    requires a <= b
    ensures Pow10(a) <= Pow10(b)
  {
    if a < b {
      Pow10Monotone(a, b - 1);
    }
  }

  /** Zero padding keeps the value of the digits. */
  lemma ZeroPaddedValue(v: nat, width: nat)
    ensures AllDigits(FormatZeroPadded(v, width)) && DigitsValue(FormatZeroPadded(v, width)) == v
  {
    var digits := NatToString(v);
    var pad := if |digits| < width then width - |digits| else 0;
    assert FormatZeroPadded(v, width) == Zeros(pad) + digits;
    DigitsValueLeadingZeros(pad, digits);
    NatToStringValue(v);
  }

  /** Decimal text of an integer, with a leading '-' when negative (Integer.toString). */
  function IntToString(v: int): (r: string)
    ensures |r| >= 1
  {
    if v < 0 then "-" + NatToString(-v) else NatToString(v)
  }

  /** String.format("%0<width>d", v): zero padding after the sign up to `width` characters. */
  function FormatZeroPadded(v: int, width: nat): (r: string)
    ensures v >= 0 ==> AllDigits(r) && |r| == if |NatToString(v)| < width then width else |NatToString(v)|
    ensures v < 0 ==> |r| > 0 && r[0] == '-'
  {
    var digits := NatToString(if v < 0 then -v else v);
    var sign := if v < 0 then "-" else "";
    var pad := if |sign| + |digits| < width then width - |sign| - |digits| else 0;
    sign + Zeros(pad) + digits
  }

  /** Java's `%` on integers: the remainder takes the sign of the dividend. */
  function JavaRem(a: int, b: int): (r: int)
    requires b != 0
    ensures a >= 0 ==> 0 <= r < (if b > 0 then b else -b)
    ensures a < 0 ==> -(if b > 0 then b else -b) < r <= 0
  {
    var m := if b > 0 then b else -b;
    if a >= 0 then a % m else -((-a) % m)
  }

  // ---------------------------------------------------------------------------
  // Sequences built step by step
  // ---------------------------------------------------------------------------

  /** A sequence grown by two appends holds the two pieces in order. */
  lemma Grown2<T>(s0: seq<T>, s1: seq<T>, s2: seq<T>, x: seq<T>, y: seq<T>)
    requires s1 == s0 + x && s2 == s1 + y
    ensures s2 == s0 + (x + y)
  {
  }

  /** A sequence grown by three appends holds the three pieces in order. */
  lemma Grown3<T>(s0: seq<T>, s1: seq<T>, s2: seq<T>, s3: seq<T>, x: seq<T>, y: seq<T>, z: seq<T>)
    requires s1 == s0 + x && s2 == s1 + y && s3 == s2 + z
    ensures s3 == s0 + (x + y + z)
  {
  }

  /** A prefix one element longer. */
  lemma TakeOneMore<T>(s: seq<T>, k: nat)
    requires k < |s|
    ensures s[..k + 1] == s[..k] + [s[k]]
  {
  }

  lemma TakeAll<T>(s: seq<T>)
    ensures s[..|s|] == s
  {
  }

  // ---------------------------------------------------------------------------
  // java.lang.StringBuilder
  // ---------------------------------------------------------------------------

  class StringBuilder {
    var text: string

    constructor ()
      ensures text == ""
    {
      text := "";
    }

    method Append(s: string)
      modifies this
      ensures text == old(text) + s
    {
      text := text + s;
    }
  }
}
