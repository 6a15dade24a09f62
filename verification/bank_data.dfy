/**
 * The generator's bank directory: rows of the bank CSV file become BankInfo records,
 * and an IBAN is built for an account at a bank (ISO 13616-1, with check digits
 * computed by ISO 7064 MOD 97-10).
 *
 * `String.hashCode()` of the account number is a parameter of the IBAN functions.
 */
module BankData {
  import opened Wrappers
  import opened JavaString
  import opened BigDec

  datatype BankInfo = BankInfo(
    swiftCode: string,
    countryCode: string,
    bankName: string,
    routingNumber: string,
    currencyCode: string,
    ibanPrefix: string,
    ibanLength: Option<int>)

  /** What generateIBAN returns for a country without IBANs. */
  const NoIbanSentinel: string := "This country does not use IBAN"

  const IntMin: int := -0x8000_0000
  const IntMax: int := 0x7fff_ffff
  const LongMax: int := 0x7fff_ffff_ffff_ffff

  predicate IsInt(v: int) { IntMin <= v <= IntMax }

  // ---------------------------------------------------------------------------
  // Reading the CSV file
  // ---------------------------------------------------------------------------

  /** Integer.parseInt: an optionally signed decimal that fits in an int. */
  function ParseInt(s: string): (r: Option<int>)
    ensures r.Some? ==> IsInt(r.value)
    ensures r.Some? <==> ParseSignedInt(s).Some? && IsInt(ParseSignedInt(s).value)
  {
    match ParseSignedInt(s)
    case None => None
    case Some(v) => if IsInt(v) then Some(v) else None
  }

  /** Integer.toString and Integer.parseInt are inverse on ints. */
  lemma ParseIntToString(v: int)
    requires IsInt(v)
    ensures ParseInt(IntToString(v)) == Some(v)
  {
    if v < 0 {
      NegativeIntParses(v);
    } else {
      NonNegativeIntParses(v);
    }
  }

  lemma NegativeIntParses(v: int)
    requires IsInt(v) && v < 0
    ensures ParseInt(IntToString(v)) == Some(v)
  {
    NatToStringValue(-v);
    assert IntToString(v)[1..] == NatToString(-v);
  }

  lemma NonNegativeIntParses(v: int)
    requires IsInt(v) && v >= 0
    ensures ParseInt(IntToString(v)) == Some(v)
  {
    NatToStringValue(v);
    assert IsDigit(NatToString(v)[0]);
  }

  /** One data row: at least five comma-separated fields (swift code, country code, bank name,
      routing number, currency code), then an optional IBAN prefix and IBAN length. Fields are
      trimmed; an empty prefix falls back to the country code; a length that does not parse
      is absent. */
  function ParseBankLine(line: string): (r: Option<BankInfo>)
    ensures r.Some? <==> |JavaSplit(line, ',')| >= 5
  {
    var fields := JavaSplit(line, ',');
    if |fields| < 5 then None
    else
      var ibanPrefix := if |fields| > 5 then Trim(fields[5]) else "";
      var ibanLengthText := if |fields| > 6 then Trim(fields[6]) else "";
      var ibanLength := if ibanLengthText == "" then None else ParseInt(ibanLengthText);
      Some(BankInfo(Trim(fields[0]), Trim(fields[1]), Trim(fields[2]), Trim(fields[3]), Trim(fields[4]),
        if ibanPrefix == "" then Trim(fields[1]) else ibanPrefix, ibanLength))
  }

  /** A parsed bank takes its codes from the first two fields; its IBAN prefix is the sixth
      field or, when that is missing or blank, the country code, so it is never empty when the
      country code is not; a length is present only when the seventh field parses. */
  lemma ParsedBankFields(line: string)
    requires ParseBankLine(line).Some?
    ensures var b, fields := ParseBankLine(line).value, JavaSplit(line, ',');
      b.swiftCode == Trim(fields[0]) && b.countryCode == Trim(fields[1])
      && (b.ibanPrefix == Trim(fields[1]) || (|fields| > 5 && b.ibanPrefix == Trim(fields[5])))
      && (b.countryCode != "" ==> b.ibanPrefix != "")
      && (b.ibanLength.Some? ==> |fields| > 6 && ParseInt(Trim(fields[6])) == b.ibanLength)
  {
  }

  /** A field value that survives being written to and read back from the CSV file. */
  predicate CsvCell(s: string) { s != [] && ',' !in s && s[0] > ' ' && s[|s| - 1] > ' ' }

  /** The CSV row for a bank, with the length column only when the length is known. */
  function BankRow(b: BankInfo): string {
    Join(RowCells(b), ",")
  }

  /** The row's cells, in column order. */
  function RowCells(b: BankInfo): (r: seq<string>)
    ensures |r| == if b.ibanLength.Some? then 7 else 6
    ensures r[0] == b.swiftCode && r[1] == b.countryCode && r[2] == b.bankName
    ensures r[3] == b.routingNumber && r[4] == b.currencyCode && r[5] == b.ibanPrefix
    ensures b.ibanLength.Some? ==> r[6] == IntToString(b.ibanLength.value)
  {
    [b.swiftCode, b.countryCode, b.bankName, b.routingNumber, b.currencyCode, b.ibanPrefix]
      + (if b.ibanLength.Some? then [IntToString(b.ibanLength.value)] else [])
  }

  /** Reading back a row written by BankRow gives the same bank. */
  lemma BankRowParses(b: BankInfo)
    requires CsvCell(b.swiftCode) && CsvCell(b.countryCode) && CsvCell(b.bankName)
    requires CsvCell(b.routingNumber) && CsvCell(b.currencyCode) && CsvCell(b.ibanPrefix)
    requires b.ibanLength.Some? ==> IsInt(b.ibanLength.value)
    ensures ParseBankLine(BankRow(b)) == Some(b)
  {
    var cells := RowCells(b);
    TrimmedCells(b);
    if b.ibanLength.Some? {
      IntToStringCell(b.ibanLength.value);
      ParseIntToString(b.ibanLength.value);
      TrimOfTrimmed(cells[6]);
    }
    forall i | 0 <= i < |cells|
      ensures CsvCell(cells[i])
    {
    }
    CellsParse(BankRow(b), cells);
  }

  /** A row joined from six or seven CSV cells parses back to those cells. */
  lemma CellsParse(line: string, cells: seq<string>)
    requires line == Join(cells, ",") && 6 <= |cells| <= 7
    requires forall i :: 0 <= i < |cells| ==> CsvCell(cells[i])
    requires Trim(cells[0]) == cells[0] && Trim(cells[1]) == cells[1] && Trim(cells[2]) == cells[2]
    requires Trim(cells[3]) == cells[3] && Trim(cells[4]) == cells[4] && Trim(cells[5]) == cells[5]
    requires |cells| == 7 ==> Trim(cells[6]) == cells[6]
    ensures ParseBankLine(line) == Some(BankInfo(cells[0], cells[1], cells[2], cells[3], cells[4], cells[5],
      if |cells| == 7 then ParseInt(cells[6]) else None))
  {
    SplitJoin(cells);
    FieldsParse(line, cells);
  }

  lemma TrimmedCells(b: BankInfo)
    requires CsvCell(b.swiftCode) && CsvCell(b.countryCode) && CsvCell(b.bankName)
    requires CsvCell(b.routingNumber) && CsvCell(b.currencyCode) && CsvCell(b.ibanPrefix)
    ensures Trim(b.swiftCode) == b.swiftCode && Trim(b.countryCode) == b.countryCode
    ensures Trim(b.bankName) == b.bankName && Trim(b.routingNumber) == b.routingNumber
    ensures Trim(b.currencyCode) == b.currencyCode && Trim(b.ibanPrefix) == b.ibanPrefix
  {
    TrimOfTrimmed(b.swiftCode); TrimOfTrimmed(b.countryCode); TrimOfTrimmed(b.bankName);
    TrimOfTrimmed(b.routingNumber); TrimOfTrimmed(b.currencyCode); TrimOfTrimmed(b.ibanPrefix);
  }

  lemma FieldsParse(line: string, cells: seq<string>)
    requires JavaSplit(line, ',') == cells && 6 <= |cells| <= 7
    requires Trim(cells[0]) == cells[0] && Trim(cells[1]) == cells[1] && Trim(cells[2]) == cells[2]
    requires Trim(cells[3]) == cells[3] && Trim(cells[4]) == cells[4] && Trim(cells[5]) == cells[5]
    requires |cells| == 7 ==> Trim(cells[6]) == cells[6]
    requires cells[5] != "" && (|cells| == 7 ==> cells[6] != "")
    ensures ParseBankLine(line) == Some(BankInfo(cells[0], cells[1], cells[2], cells[3], cells[4], cells[5],
      if |cells| == 7 then ParseInt(cells[6]) else None))
  {
  }

  lemma IntToStringCell(v: int)
    ensures CsvCell(IntToString(v))
  {
    var s := IntToString(v);
    assert IsDigit(s[|s| - 1]);
    forall i | 0 <= i < |s| ensures s[i] != ',' {
      if v >= 0 || i > 0 {
        assert IsDigit(s[i]);
      }
    }
  }

  /** Splitting joined cells that hold no separator gives the cells back. */
  lemma SplitJoin(cells: seq<string>)
    requires |cells| >= 2 && forall i :: 0 <= i < |cells| ==> CsvCell(cells[i])
    ensures JavaSplit(Join(cells, ","), ',') == cells
  {
    var s := Join(cells, ",");
    assert ',' in s by {
      assert s == cells[0] + "," + Join(cells[1..], ",");
      assert s[|cells[0]|] == ',';
    }
    PiecesJoin(cells);
    assert cells[|cells| - 1] != "";
  }

  lemma {:induction false} PiecesJoin(cells: seq<string>)
    requires |cells| >= 1 && forall i :: 0 <= i < |cells| ==> ',' !in cells[i]
    ensures Pieces(Join(cells, ","), ',') == cells
  {
    if |cells| == 1 {
      PiecesNoSep(cells[0], ',');
    } else {
      PiecesConcat(cells[0], Join(cells[1..], ","), ',');
      PiecesJoin(cells[1..]);
      assert [cells[0]] + cells[1..] == cells;
    }
  }

  /** What each data row parses to, in file order. */
  function Parses(rows: seq<string>): (r: seq<Option<BankInfo>>)
    ensures |r| == |rows| && forall i {:trigger r[i]} :: 0 <= i < |rows| ==> r[i] == ParseBankLine(rows[i])
  {
    seq(|rows|, i requires 0 <= i < |rows| => ParseBankLine(rows[i]))
  }

  /** The values of the present entries, in order. */
  function Present<T>(opts: seq<Option<T>>): (r: seq<T>)
    ensures |r| <= |opts|
  {
    if opts == [] then []
    else
      var last := opts[|opts| - 1];
      Present(opts[..|opts| - 1]) + (if last.Some? then [last.value] else [])
  }

  /** The banks of the data rows, in file order; rows with fewer than five fields are skipped. */
  function ParsedRows(rows: seq<string>): seq<BankInfo> {
    Present(Parses(rows))
  }

  /** The banks of a whole file: the first line is the header. */
  function LoadedBanks(lines: seq<string>): seq<BankInfo> {
    if lines == [] then [] else ParsedRows(lines[1..])
  }

  lemma ParsesSnoc(rows: seq<string>, line: string)
    ensures Parses(rows + [line]) == Parses(rows) + [ParseBankLine(line)]
  {
    var l, r := Parses(rows + [line]), Parses(rows) + [ParseBankLine(line)];
    forall i | 0 <= i < |l| ensures l[i] == r[i] {
      if i < |rows| {
        assert (rows + [line])[i] == rows[i];
      }
    }
  }

  /** Reading data row `k` (line `k + 1`) adds its bank, if it parses, after those before it. */
  lemma LoadStep(lines: seq<string>, k: nat)
    requires k + 1 < |lines|
    ensures var opts := Parses(lines[1..]); var bank := ParseBankLine(lines[k + 1]);
      Present(opts[..k + 1]) == Present(opts[..k]) + (if bank.Some? then [bank.value] else [])
  {
    var opts := Parses(lines[1..]);
    assert opts[k] == ParseBankLine(lines[k + 1]);
    TakeOneMore(opts, k);
    PresentSnoc(opts[..k], opts[k]);
  }

  lemma PresentSnoc<T>(opts: seq<Option<T>>, o: Option<T>)
    ensures Present(opts + [o]) == Present(opts) + (if o.Some? then [o.value] else [])
  {
    assert (opts + [o])[..|opts|] == opts;
  }

  lemma {:induction false} PresentAll<T>(opts: seq<Option<T>>)
    requires forall i :: 0 <= i < |opts| ==> opts[i].Some?
    ensures |Present(opts)| == |opts|
    ensures forall i :: 0 <= i < |opts| ==> Present(opts)[i] == opts[i].value
  {
    if opts != [] {
      var init := opts[..|opts| - 1];
      PresentAll(init);
      forall i | 0 <= i < |opts| ensures Present(opts)[i] == opts[i].value {
        if i < |init| {
          assert opts[i] == init[i];
        }
      }
    }
  }

  lemma {:induction false} PresentOrigin<T>(opts: seq<Option<T>>)
    ensures forall b :: b in Present(opts) ==> exists i :: 0 <= i < |opts| && opts[i] == Some(b)
  {
    if opts != [] {
      var init := opts[..|opts| - 1];
      PresentOrigin(init);
      forall b | b in Present(opts) ensures exists i :: 0 <= i < |opts| && opts[i] == Some(b) {
        if b in Present(init) {
          var i :| 0 <= i < |init| && init[i] == Some(b);
          assert opts[i] == init[i];
        } else {
          assert opts[|opts| - 1] == Some(b);
        }
      }
    }
  }

  /** When every row has its five fields, row i gives bank i. */
  lemma ParsedRowsAll(rows: seq<string>)
    requires forall i :: 0 <= i < |rows| ==> ParseBankLine(rows[i]).Some?
    ensures |ParsedRows(rows)| == |rows|
    ensures forall i :: 0 <= i < |rows| ==> ParsedRows(rows)[i] == ParseBankLine(rows[i]).value
  {
    PresentAll(Parses(rows));
  }

  /** Every loaded bank comes from some data row, never from the header. */
  lemma ParsedRowsOrigin(rows: seq<string>)
    ensures forall b :: b in ParsedRows(rows) ==> exists i :: 0 <= i < |rows| && ParseBankLine(rows[i]) == Some(b)
  {
    PresentOrigin(Parses(rows));
  }

  // ---------------------------------------------------------------------------
  // ISO 7064 MOD 97-10
  // ---------------------------------------------------------------------------

  /** How mod97 spells a character as digits: a letter becomes the decimal text of
      c - 'A' + 10, anything else stays. */
  function Expand(c: char): (r: string)
    ensures IsDigit(c) ==> r == [c]
    ensures IsLetter(c) ==> |r| == 2 && AllDigits(r)
  {
    if IsLetter(c) then
      var v := c as int - 'A' as int + 10;
      TwoDigitText(v);
      IntToString(v)
    else [c]
  }

  lemma TwoDigitText(v: int)
    requires 10 <= v < 100
    ensures |IntToString(v)| == 2 && AllDigits(IntToString(v))
  {
    assert NatToString(v) == NatToString(v / 10) + [DigitChar(v % 10)];
  }

  /** The digit string mod97 builds from its input. */
  function Numeric(s: string): string {
    if s == [] then "" else Numeric(s[..|s| - 1]) + Expand(s[|s| - 1])
  }

  /** Character.getNumericValue on ASCII: a digit's value, a letter's position from 10, else -1. */
  function NumericValue(c: char): int {
    if IsDigit(c) then DigitValue(c)
    else if IsUpper(c) then c as int - 'A' as int + 10
    else if IsLower(c) then c as int - 'a' as int + 10
    else -1
  }

  /** The remainder mod97 carries through a digit string, with Java's `%`. */
  function RemainderOf(digits: string): (r: int)
    ensures -97 < r < 97
  {
    if digits == [] then 0
    else JavaRem(RemainderOf(digits[..|digits| - 1]) * 10 + NumericValue(digits[|digits| - 1]), 97)
  }

  /** What mod97 returns. */
  function Mod97Of(input: string): int { RemainderOf(Numeric(input)) }

  predicate AllAlnum(s: string) { forall i :: 0 <= i < |s| ==> IsDigit(s[i]) || IsLetter(s[i]) }

  method Mod97(input: string) returns (remainder: int)
    ensures remainder == Mod97Of(input)
    ensures -97 < remainder < 97
    ensures AllAlnum(input) ==> 0 <= remainder < 97
  {
    var numeric := ExpandAll(input);
    remainder := Remainder(numeric);
    if AllAlnum(input) {
      Mod97IsRemainder(input);
    }
  }

  /** mod97's first loop: the expanded digit string. */
  method ExpandAll(input: string) returns (numeric: string)
    ensures numeric == Numeric(input)
  {
    var sb := new StringBuilder();
    var i := 0;
    while i < |input|
      invariant 0 <= i <= |input|
      invariant sb.text == Numeric(input[..i])
    {
      assert input[..i + 1][..i] == input[..i];
      sb.Append(Expand(input[i]));
      i := i + 1;
    }
    assert input[..|input|] == input;
    numeric := sb.text;
  }

  /** mod97's second loop: the remainder carried digit by digit. */
  method Remainder(digits: string) returns (remainder: int)
    ensures remainder == RemainderOf(digits)
  {
    remainder := 0;
    var j := 0;
    while j < |digits|
      invariant 0 <= j <= |digits|
      invariant remainder == RemainderOf(digits[..j])
    {
      assert digits[..j + 1][..j] == digits[..j];
      remainder := JavaRem(remainder * 10 + NumericValue(digits[j]), 97);
      j := j + 1;
    }
    assert digits[..|digits|] == digits;
  }

  /** On letters and digits, mod97 is the value of the expanded digit string modulo 97. */
  lemma Mod97IsRemainder(input: string)
    requires AllAlnum(input)
    ensures AllDigits(Numeric(input))
    ensures Mod97Of(input) == DigitsValue(Numeric(input)) % 97
  {
    NumericDigits(input);
    RemainderIsMod(Numeric(input));
  }

  lemma {:induction false} NumericDigits(s: string)
    requires AllAlnum(s)
    ensures AllDigits(Numeric(s))
  {
    if s != [] {
      NumericDigits(s[..|s| - 1]);
      var a, b := Numeric(s[..|s| - 1]), Expand(s[|s| - 1]);
      assert forall i :: 0 <= i < |a + b| ==> (a + b)[i] == if i < |a| then a[i] else b[i - |a|];
    }
  }

  lemma {:induction false} NumericConcat(a: string, b: string)
    ensures Numeric(a + b) == Numeric(a) + Numeric(b)
  {
    if b == [] {
      assert a + b == a;
    } else {
      var init := b[..|b| - 1];
      assert (a + b)[..|a + b| - 1] == a + init;
      NumericConcat(a, init);
    }
  }

  /** Digits expand to themselves. */
  lemma {:induction false} NumericOfDigits(s: string)
    requires AllDigits(s)
    ensures Numeric(s) == s
  {
    if s != [] {
      NumericOfDigits(s[..|s| - 1]);
      assert s[..|s| - 1] + [s[|s| - 1]] == s;
    }
  }

  lemma {:induction false} RemainderIsMod(digits: string)
    requires AllDigits(digits)
    ensures RemainderOf(digits) == DigitsValue(digits) % 97
  {
    if digits != [] {
      var init, c := digits[..|digits| - 1], digits[|digits| - 1];
      RemainderIsMod(init);
      assert init + [c] == digits;
      DigitsValueConcat(init, [c]);
      assert Pow10(1) == 10;
      assert DigitsValue([c]) == DigitValue(c);
      ShiftMod(DigitsValue(init), DigitValue(c));
    }
  }

  /** Appending a digit commutes with reducing modulo 97. */
  lemma ShiftMod(v: nat, d: nat)
    ensures ((v % 97) * 10 + d) % 97 == (v * 10 + d) % 97
  {
    var q := v / 97;
    assert v == 97 * q + v % 97;
    assert v * 10 + d == ((v % 97) * 10 + d) + 97 * (10 * q);
    AddMultipleMod((v % 97) * 10 + d, 10 * q);
  }

  lemma {:induction false} AddMultipleMod(x: nat, k: nat)
    ensures (x + 97 * k) % 97 == x % 97
  {
    if k > 0 {
      AddMultipleMod(x, k - 1);
      assert x + 97 * k == (x + 97 * (k - 1)) + 97;
    }
  }

  // ---------------------------------------------------------------------------
  // IBAN generation
  // ---------------------------------------------------------------------------

  /** The routing number's decimal digits, at most the first eight. */
  function BankCode(routingNumber: string): (r: string)
    ensures AllDigits(r) && |r| <= 8
    ensures var digits := Filter(routingNumber, IsDigit);
      |r| <= |digits| && r == digits[..|r|] && (|r| < 8 ==> r == digits)
  {
    var digits := Filter(routingNumber, IsDigit);
    if |digits| > 8 then digits[..8] else digits
  }

  /** The account part's width: what the IBAN length leaves after country, check digits and
      bank code, or 10 when nothing is left. */
  function NeededLength(ibanLength: int, bankCode: string): (n: nat)
    ensures n > 0
  {
    var n := ibanLength - 4 - |bankCode|;
    if n <= 0 then 10 else n
  }

  /** `(long) Math.pow(10, n)`: exact up to 10^18, saturated to Long.MAX_VALUE above. */
  function LongPow10(n: nat): (r: int)
    ensures r >= 1
  {
    if n <= 18 then Pow10(n) else LongMax
  }

  /** Math.abs on an int: Integer.MIN_VALUE is its own absolute value. */
  function IntAbs(v: int): int {
    if v == IntMin then IntMin else if v < 0 then -v else v
  }

  /** padAccount as written: the absolute value of the account number's hash, reduced
      modulo 10^n and printed with `%0nd`. */
  function PadAccountAsWritten(ibanLength: int, bankCode: string, accountHash: int): string {
    var n := NeededLength(ibanLength, bankCode);
    FormatZeroPadded(JavaRem(IntAbs(accountHash), LongPow10(n)), n)
  }

  /** padAccount with the absolute value taken on a long, so it is never negative: exactly
      `n` digits whose value is the hash's magnitude modulo 10^n. */
  function PadAccount(ibanLength: int, bankCode: string, accountHash: int): (r: string)
    requires IsInt(accountHash)
    ensures var n := NeededLength(ibanLength, bankCode);
      var magnitude := if accountHash < 0 then -accountHash else accountHash;
      |r| == n && AllDigits(r) && DigitsValue(r) == magnitude % Pow10(n)
  {
    var n := NeededLength(ibanLength, bankCode);
    var magnitude: nat := if accountHash < 0 then -accountHash else accountHash;
    var v := JavaRem(magnitude, LongPow10(n));
    ReducedMagnitude(magnitude, n);
    NatToStringLength(v, n);
    ZeroPaddedValue(v, n);
    FormatZeroPadded(v, n)
  }

  lemma ReducedMagnitude(magnitude: nat, n: nat)
    requires magnitude <= -IntMin
    ensures JavaRem(magnitude, LongPow10(n)) == magnitude % Pow10(n)
    ensures magnitude % Pow10(n) < Pow10(n)
  {
    if n > 18 {
      Pow10Monotone(10, n);
      Pow10Ten();
      SmallMod(magnitude, LongMax);
      SmallMod(magnitude, Pow10(n));
    }
  }

  lemma Pow10Ten()
    ensures Pow10(10) == 10000000000
  {
    assert Pow10(5) == 100000;
    Pow10Add(5, 5);
  }

  lemma SmallMod(x: nat, y: nat)
    requires x < y
    ensures x % y == x
  {
  }

  /** The two padAccount versions agree on every hash but Integer.MIN_VALUE. */
  lemma PadAccountAgrees(ibanLength: int, bankCode: string, accountHash: int)
    requires IsInt(accountHash) && accountHash != IntMin
    ensures PadAccountAsWritten(ibanLength, bankCode, accountHash) == PadAccount(ibanLength, bankCode, accountHash)
  {
  }

  /** The IBAN for an account part: prefix, check digits, bank code, account part. */
  function IbanFor(ibanPrefix: string, bankCode: string, account: string): string {
    var checkDigits := FormatZeroPadded(98 - Mod97Of(bankCode + account + ibanPrefix + "00"), 2);
    ibanPrefix + checkDigits + bankCode + account
  }

  /** generateIBAN as written. */
  function IbanAsWritten(bank: BankInfo, accountHash: int): string {
    if bank.ibanLength.None? || bank.ibanLength.value == 0 then NoIbanSentinel
    else
      var bankCode := BankCode(bank.routingNumber);
      IbanFor(bank.ibanPrefix, bankCode, PadAccountAsWritten(bank.ibanLength.value, bankCode, accountHash))
  }

  /** generateIBAN with the corrected account part. */
  function Iban(bank: BankInfo, accountHash: int): (r: string)
    requires IsInt(accountHash)
    ensures bank.ibanLength.None? || bank.ibanLength.value == 0 ==> r == NoIbanSentinel
  {
    if bank.ibanLength.None? || bank.ibanLength.value == 0 then NoIbanSentinel
    else
      var bankCode := BankCode(bank.routingNumber);
      IbanFor(bank.ibanPrefix, bankCode, PadAccount(bank.ibanLength.value, bankCode, accountHash))
  }

  /** The check digits are two digits whenever the prefix is made of letters and digits. */
  lemma CheckDigitsShape(ibanPrefix: string, bankCode: string, account: string)
    requires AllDigits(bankCode) && AllDigits(account) && AllAlnum(ibanPrefix)
    ensures var m := Mod97Of(bankCode + account + ibanPrefix + "00");
      0 <= m < 97
      && var checkDigits := FormatZeroPadded(98 - m, 2);
      |checkDigits| == 2 && AllDigits(checkDigits) && DigitsValue(checkDigits) == 98 - m
  {
    var temp := bankCode + account + ibanPrefix + "00";
    assert AllAlnum(temp) by {
      forall i | 0 <= i < |temp| ensures IsDigit(temp[i]) || IsLetter(temp[i]) {
        var a, b := bankCode + account, ibanPrefix + "00";
        assert temp == a + b;
        if i < |a| {
          assert temp[i] == a[i];
          if i < |bankCode| { assert a[i] == bankCode[i]; } else { assert a[i] == account[i - |bankCode|]; }
        } else {
          assert temp[i] == b[i - |a|];
        }
      }
    }
    Mod97IsRemainder(temp);
    var m := Mod97Of(temp);
    NatToStringLength(98 - m, 2);
    ZeroPaddedValue(98 - m, 2);
  }

  /** Where the IBAN is built, it is prefix, two check digits, bank code and an account part of
      the needed width, so it has the length the bank declares when that length leaves room
      for the account. */
  lemma IbanLayout(bank: BankInfo, accountHash: int)
    requires IsInt(accountHash) && bank.ibanLength.Some? && bank.ibanLength.value != 0
    requires AllAlnum(bank.ibanPrefix)
    ensures var bankCode := BankCode(bank.routingNumber);
      var account := PadAccount(bank.ibanLength.value, bankCode, accountHash);
      var r := Iban(bank, accountHash);
      |account| == NeededLength(bank.ibanLength.value, bankCode)
      && |r| == |bank.ibanPrefix| + 2 + |bankCode| + |account|
      && r[..|bank.ibanPrefix|] == bank.ibanPrefix
      && r[|bank.ibanPrefix| + 2..] == bankCode + account
      && (|bank.ibanPrefix| == 2 && bank.ibanLength.value - 4 - |bankCode| > 0 ==> |r| == bank.ibanLength.value)
  {
    var bankCode := BankCode(bank.routingNumber);
    var account := PadAccount(bank.ibanLength.value, bankCode, accountHash);
    CheckDigitsShape(bank.ibanPrefix, bankCode, account);
    var checkDigits := FormatZeroPadded(98 - Mod97Of(bankCode + account + bank.ibanPrefix + "00"), 2);
    var r := bank.ibanPrefix + checkDigits + (bankCode + account);
    assert Iban(bank, accountHash) == r;
    assert r[..|bank.ibanPrefix|] == bank.ibanPrefix;
    assert r[|bank.ibanPrefix| + 2..] == bankCode + account;
  }

  /** ISO 13616-1 validity: moving the first four characters to the end and reading letters
      as 10..35 gives a number that is 1 modulo 97. */
  predicate IsValidIban(iban: string) {
    |iban| >= 4 && Mod97Of(iban[4..] + iban[..4]) == 1
  }

  /** Every IBAN built for a two-letter (or alphanumeric) prefix passes the MOD 97-10 check. */
  lemma IbanCheckDigitsValid(bank: BankInfo, accountHash: int)
    requires IsInt(accountHash) && bank.ibanLength.Some? && bank.ibanLength.value != 0
    requires |bank.ibanPrefix| == 2 && AllAlnum(bank.ibanPrefix)
    ensures IsValidIban(Iban(bank, accountHash))
  {
    var prefix, bankCode := bank.ibanPrefix, BankCode(bank.routingNumber);
    var account := PadAccount(bank.ibanLength.value, bankCode, accountHash);
    CheckDigitsShape(prefix, bankCode, account);
    var body := bankCode + account + prefix;
    var m := Mod97Of(body + "00");
    var checkDigits := FormatZeroPadded(98 - m, 2);
    Rotated(Iban(bank, accountHash), prefix, checkDigits, bankCode, account);
    RearrangedValue(body, checkDigits, m);
  }

  /** Moving the first four characters of an IBAN to its end. */
  lemma Rotated(iban: string, prefix: string, checkDigits: string, bankCode: string, account: string)
    requires iban == prefix + checkDigits + (bankCode + account) && |prefix| == 2 && |checkDigits| == 2
    ensures iban[4..] + iban[..4] == bankCode + account + prefix + checkDigits
  {
    assert iban[..4] == prefix + checkDigits;
    assert iban[4..] == bankCode + account;
  }

  /** With check digits 98 - (N·100 mod 97), the number N·100 + check is 1 modulo 97. */
  lemma RearrangedValue(body: string, checkDigits: string, m: int)
    requires AllAlnum(body) && AllDigits(checkDigits) && |checkDigits| == 2
    requires m == Mod97Of(body + "00") && 0 <= m < 97 && DigitsValue(checkDigits) == 98 - m
    ensures Mod97Of(body + checkDigits) == 1
  {
    var x := WithZeros(body);
    CheckDigitsClose(body, checkDigits, m, x);
  }

  /** The second half of the check: m is N·100 mod 97 and the check digits are 98 - m. */
  lemma CheckDigitsClose(body: string, checkDigits: string, m: int, x: nat)
    requires AllAlnum(body) && AllDigits(checkDigits) && |checkDigits| == 2
    requires AllDigits(Numeric(body)) && x == DigitsValue(Numeric(body)) * 100
    requires m == x % 97 && DigitsValue(checkDigits) == 98 - m
    ensures Mod97Of(body + checkDigits) == 1
  {
    var c := DigitsValue(checkDigits);
    var r := WithTwoDigits(body, checkDigits, x, c);
    CheckValue(x, m, c, r);
  }

  /** Two zero digits after a body: the body's number times 100, modulo 97. */
  lemma WithZeros(body: string) returns (x: nat)
    requires AllAlnum(body)
    ensures AllDigits(Numeric(body)) && x == DigitsValue(Numeric(body)) * 100
    ensures Mod97Of(body + "00") == x % 97
  {
    NumericDigits(body);
    x := DigitsValue(Numeric(body)) * 100;
    DoubleZero();
    var r := WithTwoDigits(body, "00", x, 0);
  }

  /** Two digits after a body: the body's number times 100 plus theirs, modulo 97. */
  lemma WithTwoDigits(body: string, two: string, x: nat, v: nat) returns (r: int)
    requires AllAlnum(body) && AllDigits(two) && |two| == 2
    requires AllDigits(Numeric(body)) && x == DigitsValue(Numeric(body)) * 100 && v == DigitsValue(two)
    ensures r == Mod97Of(body + two) && r == (x + v) % 97
  {
    var n := Numeric(body);
    NumericWithDigits(body, two);
    assert Mod97Of(body + two) == RemainderOf(n + two);
    DigitsValueConcat(n, two);
    Pow10Two();
    var v := DigitsValue(n + two);
    assert v == x + DigitsValue(two);
    RemainderIsMod(n + two);
    r := RemainderOf(n + two);
    assert r == v % 97;
  }

  lemma NumericWithDigits(body: string, two: string)
    requires AllDigits(two)
    ensures Numeric(body + two) == Numeric(body) + two
  {
    NumericConcat(body, two);
    NumericOfDigits(two);
  }

  lemma Pow10Two()
    ensures Pow10(2) == 100
  {
  }

  lemma DoubleZero()
    ensures DigitsValue("00") == 0
  {
    assert DigitsValue("0") == 0;
  }

  lemma CheckValue(x: nat, m: int, check: int, r: int)
    requires m == x % 97 && check == 98 - m && r == (x + check) % 97
    ensures r == 1
  {
    var q := x / 97;
    assert x + (98 - m) == 98 + 97 * q;
    AddMultipleMod(98, q);
  }

  /** The input that shows the finding: a German bank (22-character IBANs, 8-digit routing
      number) and an account number whose hash is Integer.MIN_VALUE, such as
      "polygenelubricants". As written, the account part is "-2147483648" and the IBAN is
      longer than 22 characters; corrected, it has 22. */
  lemma IbanAsWrittenMinValue()
    ensures var bank := BankInfo("COBADEFFXXX", "DE", "Commerzbank", "37040044", "EUR", "DE", Some(22));
      PadAccountAsWritten(22, "37040044", IntMin) == "-2147483648"
      && |IbanAsWritten(bank, IntMin)| > 22
      && |Iban(bank, IntMin)| == 22
  {
    MinValuePadding();
    MinValueAsWritten(BankInfo("COBADEFFXXX", "DE", "Commerzbank", "37040044", "EUR", "DE", Some(22)));
    MinValueCorrected(BankInfo("COBADEFFXXX", "DE", "Commerzbank", "37040044", "EUR", "DE", Some(22)));
  }

  lemma MinValueAsWritten(bank: BankInfo)
    requires bank.routingNumber == "37040044" && bank.ibanPrefix == "DE" && bank.ibanLength == Some(22)
    ensures |IbanAsWritten(bank, IntMin)| > 22
  {
    GermanBankCode();
    MinValuePadding();
    IbanForLength("DE", "37040044", PadAccountAsWritten(22, "37040044", IntMin));
  }

  lemma MinValueCorrected(bank: BankInfo)
    requires bank.routingNumber == "37040044" && bank.ibanPrefix == "DE" && bank.ibanLength == Some(22)
    ensures |Iban(bank, IntMin)| == 22
  {
    GermanBankCode();
    IbanLayout(bank, IntMin);
  }

  /** Whatever the account part, the check digits take at least two characters. */
  lemma IbanForLength(ibanPrefix: string, bankCode: string, account: string)
    ensures |IbanFor(ibanPrefix, bankCode, account)| >= |ibanPrefix| + 2 + |bankCode| + |account|
  {
    var m := Mod97Of(bankCode + account + ibanPrefix + "00");
    assert 98 - m >= 0;
  }

  lemma GermanBankCode()
    ensures BankCode("37040044") == "37040044" && NeededLength(22, "37040044") == 10
  {
    FilterKeepsAll("37040044", IsDigit);
  }

  lemma MinValuePadding()
    ensures PadAccountAsWritten(22, "37040044", IntMin) == "-2147483648"
  {
    GermanBankCode();
    Pow10Ten();
    assert LongPow10(10) == 10000000000;
    assert JavaRem(IntAbs(IntMin), LongPow10(10)) == -2147483648;
    MinValueText();
  }

  lemma MinValueText()
    ensures FormatZeroPadded(-2147483648, 10) == "-2147483648"
  {
    MinValueLowDigits();
    AppendDigit(21474, 8);
    AppendDigit(214748, 3);
    AppendDigit(2147483, 6);
    AppendDigit(21474836, 4);
    AppendDigit(214748364, 8);
  }

  lemma MinValueLowDigits()
    ensures NatToString(21474) == "21474"
  {
    assert NatToString(2) == "2";
    AppendDigit(2, 1);
    AppendDigit(21, 4);
    AppendDigit(214, 7);
    AppendDigit(2147, 4);
  }

  lemma AppendDigit(q: nat, d: nat)
    requires q >= 1 && d < 10
    ensures NatToString(10 * q + d) == NatToString(q) + [DigitChar(d)]
  {
    assert (10 * q + d) / 10 == q && (10 * q + d) % 10 == d;
  }

  // ---------------------------------------------------------------------------
  // The service
  // ---------------------------------------------------------------------------

  /** The loaded banks; every method works on this list. */
  class BankDataService {
    var banks: seq<BankInfo>

    constructor ()
      ensures banks == []
    {
      banks := [];
    }

    /** loadBanksFromCsv on the file's lines: the header is skipped and every data row with
        at least five fields adds a bank at the end. */
    method LoadBanksFromCsv(lines: seq<string>)
      modifies this
      ensures banks == old(banks) + LoadedBanks(lines)
    {
      ghost var opts := Parses(if lines == [] then [] else lines[1..]);
      ghost var rowsRead := 0;
      var isHeader := true;
      var i := 0;
      while i < |lines|
        invariant 0 <= i <= |lines|
        invariant isHeader <==> i == 0
        invariant rowsRead == if i == 0 then 0 else i - 1
        invariant banks == old(banks) + Present(opts[..rowsRead])
      {
        if isHeader {
          isHeader := false;
        } else {
          ghost var before := banks;
          var bank := ParseBankLine(lines[i]);
          LoadStep(lines, rowsRead);
          if bank.Some? {
            banks := banks + [bank.value];
          }
          Grown2(old(banks), before, banks, Present(opts[..rowsRead]), if bank.Some? then [bank.value] else []);
          rowsRead := rowsRead + 1;
        }
        i := i + 1;
      }
      TakeAll(opts);
    }

    /** getRandomBank with the random index as a parameter. */
    method GetRandomBank(draw: nat) returns (bank: Option<BankInfo>)
      ensures bank.None? <==> banks == []
      ensures bank.Some? ==> bank.value in banks && bank.value == banks[draw % |banks|]
    {
      if banks == [] {
        bank := None;
      } else {
        bank := Some(banks[draw % |banks|]);
      }
    }

    /** getAllBanks: a copy of the list; the service's own list is left as it is. */
    method GetAllBanks() returns (all: seq<BankInfo>)
      ensures all == banks
    {
      all := banks;
    }

    /** generateIBAN, with mod97 run as a loop. */
    method GenerateIban(bank: BankInfo, accountHash: int) returns (iban: string)
      requires IsInt(accountHash)
      ensures iban == Iban(bank, accountHash)
    {
      if bank.ibanLength.None? || bank.ibanLength.value == 0 {
        return NoIbanSentinel;
      }
      var bankCode := BankCode(bank.routingNumber);
      var account := PadAccount(bank.ibanLength.value, bankCode, accountHash);
      var remainder := Mod97(bankCode + account + bank.ibanPrefix + "00");
      var checkDigits := FormatZeroPadded(98 - remainder, 2);
      iban := bank.ibanPrefix + checkDigits + bankCode + account;
    }
  }
}
