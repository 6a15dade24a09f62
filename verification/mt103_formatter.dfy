/**
 * MT103 (single customer credit transfer) text built from a generator transaction:
 * header blocks 1-3, the block-4 field list, and the block-5 trailer.
 *
 * The text is specified declaratively (a header, a list of tagged fields and a
 * trailer, each rendered in the SWIFT layout); the methods append the pieces to a
 * StringBuilder in the source's order and are proved to produce that text.
 * The random choices (address lines, MAC and checksum characters) are `Draws`.
 */
module Mt103Formatter {
  import opened Wrappers
  import opened JavaString
  import opened BigDec
  import opened Clock
  import opened GenTransaction
  import opened Mt103Constants
  import BankData

  // ---------------------------------------------------------------------------
  // Random choices
  // ---------------------------------------------------------------------------

  /** Results of the random.nextInt calls, in the order the formatter makes them. */
  datatype Draws = Draws(fromAddress: nat, toAddress: nat, mac: seq<nat>, checksum: seq<nat>)

  /** nextInt(bound) results lie below the bound; MAC has 8 draws, checksum 12. */
  predicate ValidDraws(d: Draws) {
    d.fromAddress < |AddressTemplates| && d.toAddress < |AddressTemplates|
    && |d.mac| == 8 && |d.checksum| == 12
    && (forall i :: 0 <= i < |d.mac| ==> d.mac[i] < |HexChars|)
    && (forall i :: 0 <= i < |d.checksum| ==> d.checksum[i] < |HexChars|)
  }

  // ---------------------------------------------------------------------------
  // Helpers
  // ---------------------------------------------------------------------------

  /** truncateToLength: null gives "", a longer string its first `maxLength` characters. */
  function TruncateToLength(input: Option<string>, maxLength: nat): (r: string)
    ensures input.None? ==> r == ""
    ensures input.Some? ==> |r| == (if |input.value| > maxLength then maxLength else |input.value|)
    ensures input.Some? ==> r == input.value[..|r|]
  {
    if input.None? then "" else if |input.value| > maxLength then input.value[..maxLength] else input.value
  }

  /** formatLTAddress: the trimmed, upper-cased BIC padded to a 12-character LT address. */
  function FormatLTAddress(bic: string): (r: string)
    ensures var n := ToUpper(Trim(bic));
      StartsWith(r, n)
      && (|n| == 8 ==> r == n + "XXX0")
      && (|n| == 12 ==> r == n)
      && (|n| != 8 && |n| != 12 ==> r == n + "0")
  {
    var normalized := ToUpper(Trim(bic));
    if |normalized| == 8 then normalized + "XXX0"
    else if |normalized| == 11 then normalized + "0"
    else if |normalized| == 12 then normalized
    else normalized + "0"
  }

  /** The LT address has the standard 12 characters exactly for 8-, 11- and 12-character BICs. */
  lemma LTAddressLength(bic: string)
    ensures var n := ToUpper(Trim(bic));
      |FormatLTAddress(bic)| == 12 <==> |n| == 8 || |n| == 11 || |n| == 12
  {
  }

  /** formatAmount: every '.' becomes ','. */
  function FormatAmount(amount: string): (r: string)
    ensures |r| == |amount| && '.' !in r
    ensures forall i :: 0 <= i < |amount| && amount[i] != '.' ==> r[i] == amount[i]
  {
    ReplaceChar(amount, '.', ',')
  }

  /** Turning the commas back into points recovers BigDecimal.toString, which never prints a comma. */
  lemma FormatAmountInverse(d: BigDecimal)
    ensures ReplaceChar(FormatAmount(ToString(d)), ',', '.') == ToString(d)
  {
    var s := ToString(d);
    NoCommaInToString(d);
    var back := ReplaceChar(FormatAmount(s), ',', '.');
    assert forall i :: 0 <= i < |s| ==> back[i] == s[i];
  }

  lemma NoCommaInToString(d: BigDecimal)
    ensures ',' !in ToString(d)
  {
    var digits := Coefficient(d);
    assert ',' !in digits by {
      forall i | 0 <= i < |digits| ensures digits[i] != ',' {
        assert IsDigit(digits[i]);
      }
    }
    var a := Adjusted(d);
    var e := NatToString(Abs(a));
    assert ',' !in e by {
      forall i | 0 <= i < |e| ensures e[i] != ',' {
        assert IsDigit(e[i]);
      }
    }
    if d.scale > 0 && |digits| <= d.scale {
      assert ',' !in Zeros(d.scale - |digits|);
    }
  }

  /** Charge bearer of field 71A. */
  function ChargeBearer(t: Transaction): (r: string)
    ensures r == "SHA" <==> IsCrossBorder(t)
    ensures r == "SHA" || r == "OUR"
  {
    if IsCrossBorder(t) then "SHA" else "OUR"
  }

  /** needsIntermediaryBank: the BICs' country characters differ, or a BIC is too short to
      have them (substring(4, 6) throws and the catch answers true). */
  function NeedsIntermediaryBank(t: Transaction): (r: bool)
    ensures !r <==> |t.fromBankSwift| >= 6 && |t.toBankSwift| >= 6
                    && t.fromBankSwift[4..6] == t.toBankSwift[4..6]
  {
    if |t.fromBankSwift| < 6 || |t.toBankSwift| < 6 then true
    else t.fromBankSwift[4..6] != t.toBankSwift[4..6]
  }

  /** A constructed cross-border transaction always gets an intermediary; so does a domestic
      one only when one of its BICs is shorter than six characters. */
  lemma IntermediaryForCrossBorder(t: Transaction)
    requires t.fromCountryCode == ExtractCountryCode(Some(t.fromBankSwift))
    requires t.toCountryCode == ExtractCountryCode(Some(t.toBankSwift))
    ensures IsCrossBorder(t) ==> NeedsIntermediaryBank(t)
    ensures NeedsIntermediaryBank(t) && !IsCrossBorder(t) ==> |t.fromBankSwift| < 6 || |t.toBankSwift| < 6
  {
  }

  /** Every listed correspondent is a bank of the country it is listed for: its BIC carries
      that country code in positions 5 and 6. */
  lemma CorrespondentsInTheirCountry()
    ensures forall code :: code in IntermediaryBanks ==>
      |IntermediaryBanks[code]| >= 6 && IntermediaryBanks[code][4..6] == code
  {
  }

  /** getIntermediaryBankSwift: the correspondent for the receiver's country, DEUTDEFFXXX
      otherwise. The correspondent is a bank of the receiver's country whenever one is listed
      for it, and a German bank otherwise. */
  function IntermediaryBankSwift(t: Transaction): (r: string)
    ensures |t.toBankSwift| >= 6 && t.toBankSwift[4..6] in IntermediaryBanks ==> r == IntermediaryBanks[t.toBankSwift[4..6]]
    ensures |t.toBankSwift| < 6 || t.toBankSwift[4..6] !in IntermediaryBanks ==> r == "DEUTDEFFXXX"
    ensures |r| >= 6
    ensures r[4..6] == if |t.toBankSwift| >= 6 && t.toBankSwift[4..6] in IntermediaryBanks then t.toBankSwift[4..6] else "DE"
  {
    CorrespondentsInTheirCountry();
    if |t.toBankSwift| < 6 then "DEUTDEFFXXX" else GetOrDefault(IntermediaryBanks, t.toBankSwift[4..6], "DEUTDEFFXXX")
  }

  /** buildRemittanceInfo: fixed text, the first 8 identifier characters, and a cross-border note. */
  function BuildRemittanceInfo(t: Transaction): (r: string)
    ensures StartsWith(r, "Payment for services - TXN ID: " + TruncateToLength(t.transactionId, 8))
    ensures EndsWith(r, " - Cross-border transfer") <== IsCrossBorder(t)
  {
    "Payment for services - TXN ID: " + TruncateToLength(t.transactionId, 8)
    + (if IsCrossBorder(t) then " - Cross-border transfer" else "")
  }

  /** hasValidIBAN: present, non-empty and not the "does not use IBAN" sentinel. */
  predicate HasValidIBAN(iban: Option<string>) {
    iban.Some? && iban.value != "" && iban.value != BankData.NoIbanSentinel
  }

  /** Every entry of the city table starts with a capital letter. */
  lemma CitiesCapitalised()
    ensures forall code :: code in CountryCities ==> |CountryCities[code]| > 0 && 'A' <= CountryCities[code][0] <= 'Z'
  {
  }

  /** generateCityCountry: the city table, else "Financial District, " and the country name.
      Whatever the code, the line starts with a capital letter. */
  function GenerateCityCountry(countryCode: Option<string>): (r: string)
    ensures countryCode.None? ==> r == "Unknown City, Unknown Country"
    ensures countryCode.Some? && countryCode.value in CountryCities ==> r == CountryCities[countryCode.value]
    ensures countryCode.Some? && countryCode.value !in CountryCities ==>
      r == "Financial District, " + GetOrDefault(AdditionalCountries, countryCode.value, "Unknown Country")
    ensures |r| > 0 && 'A' <= r[0] <= 'Z'
  {
    CitiesCapitalised();
    if countryCode.None? then "Unknown City, Unknown Country"
    else GetOrDefault(CountryCities, countryCode.value,
      "Financial District, " + GetOrDefault(AdditionalCountries, countryCode.value, "Unknown Country"))
  }

  /** The characters generateHexString picks for a sequence of draws. */
  function HexString(draws: seq<nat>): (r: string)
    requires forall i :: 0 <= i < |draws| ==> draws[i] < |HexChars|
    ensures |r| == |draws|
    ensures forall i :: 0 <= i < |r| ==> r[i] in HexChars
  {
    seq(|draws|, i requires 0 <= i < |draws| => HexChars[draws[i]])
  }

  /** generateHexString: one HEX_CHARS character per draw, appended in a loop. */
  method GenerateHexString(length: nat, draws: seq<nat>) returns (s: string)
    requires |draws| == length
    requires forall i :: 0 <= i < |draws| ==> draws[i] < |HexChars|
    ensures s == HexString(draws)
  {
    var result := new StringBuilder();
    var i := 0;
    while i < length
      invariant 0 <= i <= length
      invariant result.text == HexString(draws[..i])
    {
      result.Append([HexChars[draws[i]]]);
      i := i + 1;
    }
    assert draws[..length] == draws;
    s := result.text;
  }

  // ---------------------------------------------------------------------------
  // The message, declaratively
  // ---------------------------------------------------------------------------

  /** A block-4 field: its tag and its (possibly multi-line) value. */
  datatype Field = Field(tag: string, value: string)

  /** ":tag:value" followed by a line break. */
  function RenderField(f: Field): string { ":" + f.tag + ":" + f.value + "\n" }

  function RenderFields(fs: seq<Field>): string {
    if fs == [] then "" else RenderField(fs[0]) + RenderFields(fs[1..])
  }

  lemma {:induction false} RenderFieldsConcat(a: seq<Field>, b: seq<Field>)
    ensures RenderFields(a + b) == RenderFields(a) + RenderFields(b)
  {
    if a == [] {
      assert a + b == b;
    } else {
      assert (a + b)[1..] == a[1..] + b;
      RenderFieldsConcat(a[1..], b);
    }
  }

  lemma RenderOne(fs: seq<Field>, f: Field)
    ensures RenderFields(fs + [f]) == RenderFields(fs) + RenderField(f)
  {
    RenderFieldsConcat(fs, [f]);
    assert RenderFields([f]) == RenderField(f) + RenderFields([]);
  }

  /** Texts grown by rendering three groups of fields hold the rendering of all of them. */
  lemma AppendedGroups3(s0: string, s1: string, s2: string, s3: string, a: seq<Field>, b: seq<Field>, c: seq<Field>)
    requires s1 == s0 + RenderFields(a) && s2 == s1 + RenderFields(b) && s3 == s2 + RenderFields(c)
    ensures s3 == s0 + RenderFields(a + b + c)
  {
    Grown3(s0, s1, s2, s3, RenderFields(a), RenderFields(b), RenderFields(c));
    RenderFieldsConcat(a, b);
    RenderFieldsConcat(a + b, c);
  }

  lemma AppendedGroups4(s0: string, s1: string, s2: string, s3: string, s4: string,
                        a: seq<Field>, b: seq<Field>, c: seq<Field>, e: seq<Field>)
    requires s1 == s0 + RenderFields(a) && s2 == s1 + RenderFields(b)
    requires s3 == s2 + RenderFields(c) && s4 == s3 + RenderFields(e)
    ensures s4 == s0 + RenderFields(a + b + c + e)
  {
    AppendedGroups3(s0, s1, s2, s3, a, b, c);
    Grown2(s0, s3, s4, RenderFields(a + b + c), RenderFields(e));
    RenderFieldsConcat(a + b + c, e);
  }

  function Tags(fs: seq<Field>): seq<string> { seq(|fs|, i requires 0 <= i < |fs| => fs[i].tag) }

  lemma TagsConcat(a: seq<Field>, b: seq<Field>)
    ensures Tags(a + b) == Tags(a) + Tags(b)
  {
  }

  /** The tags of the four block-4 groups, the party group in its three parts, in order. */
  lemma TagsOfGroups(m: seq<Field>, a: seq<Field>, p0: seq<Field>, p1: seq<Field>, p2: seq<Field>, o: seq<Field>,
                     intermediary: seq<string>)
    requires Tags(m) == ["20", "23B", "32A"] && Tags(a) == ["33B", "71A"] && Tags(p0) == ["50K", "52A", "53B"]
    requires Tags(p1) == intermediary && Tags(p2) == ["57A", "59"] && Tags(o) == ["70", "72"]
    ensures Tags(m + a + (p0 + p1 + p2) + o) ==
      ["20", "23B", "32A", "33B", "71A", "50K", "52A", "53B"] + intermediary + ["57A", "59", "70", "72"]
  {
    TagsConcat(p0, p1);
    TagsConcat(p0 + p1, p2);
    TagsConcat(m, a);
    TagsConcat(m + a, p0 + p1 + p2);
    TagsConcat(m + a + (p0 + p1 + p2), o);
  }

  /** Header blocks 1 (sender LT address), 2 (receiver LT address, normal priority) and 3 (field 108). */
  function HeaderBlocks(t: Transaction): string {
    HeaderText(FormatLTAddress(t.fromBankSwift), FormatLTAddress(t.toBankSwift), TruncateToLength(t.transactionId, 16))
  }

  function HeaderText(senderLTAddress: string, receiverLTAddress: string, transactionRef: string): string {
    "{1:F01" + senderLTAddress + "}" + "{2:I103" + receiverLTAddress + "N}" + "{3:{108:" + transactionRef + "}}"
  }

  /** Fields 20, 23B and 32A. */
  function MandatoryFields(t: Transaction, ref: string): seq<Field>
    requires Valid(t.timestamp)
  {
    [ Field("20", ref),
      Field("23B", "CRED"),
      Field("32A", FormatYyMmDd(t.timestamp) + t.currency + FormatAmount(ToString(t.amount))) ]
  }

  /** Fields 33B and 71A. */
  function AccountingFields(t: Transaction): seq<Field> {
    [ Field("33B", t.currency + FormatAmount(ToString(t.amount))),
      Field("71A", ChargeBearer(t)) ]
  }

  /** The customer fields' account line: the IBAN when it is usable, else the account number. */
  function AccountLine(iban: Option<string>, account: string): string {
    "/" + (if HasValidIBAN(iban) then iban.value else account)
  }

  /** A customer field (50K or 59): account line, bank name, street address, city and country. */
  function CustomerField(tag: string, iban: Option<string>, account: string, bankName: string,
                         address: string, countryCode: Option<string>): Field {
    Field(tag, AccountLine(iban, account) + "\n" + bankName + "\n" + address + "\n" + GenerateCityCountry(countryCode))
  }

  /** Fields 50K, 52A and 53B. */
  function OrderingParty(t: Transaction, d: Draws): seq<Field>
    requires ValidDraws(d)
  {
    [ CustomerField("50K", t.fromIBAN, t.fromAccount, t.fromBankName, AddressTemplates[d.fromAddress], t.fromCountryCode),
      Field("52A", t.fromBankSwift),
      Field("53B", "/" + t.fromBankSwift) ]
  }

  /** Field 56A, when an intermediary is needed. */
  function IntermediaryParty(t: Transaction): seq<Field> {
    if NeedsIntermediaryBank(t) then [Field("56A", IntermediaryBankSwift(t))] else []
  }

  /** Fields 57A and 59. */
  function BeneficiaryParty(t: Transaction, d: Draws): seq<Field>
    requires ValidDraws(d)
  {
    [ Field("57A", t.toBankSwift),
      CustomerField("59", t.toIBAN, t.toAccount, t.toBankName, AddressTemplates[d.toAddress], t.toCountryCode) ]
  }

  /** Fields 50K, 52A, 53B, the optional 56A, 57A and 59. */
  function PartyFields(t: Transaction, d: Draws): seq<Field>
    requires ValidDraws(d)
  {
    OrderingParty(t, d) + IntermediaryParty(t) + BeneficiaryParty(t, d)
  }

  /** Fields 70 (remittance information) and 72 (sender-to-receiver information). */
  function OptionalFields(t: Transaction, remittance: string): seq<Field> {
    [ Field("70", remittance), Field("72", "/INS/" + t.fromBankSwift) ]
  }

  function Block4Fields(t: Transaction, d: Draws, remittance: string): seq<Field>
    requires Valid(t.timestamp) && ValidDraws(d)
  {
    MandatoryFields(t, TruncateToLength(t.transactionId, 16)) + AccountingFields(t)
    + PartyFields(t, d) + OptionalFields(t, remittance)
  }

  /** Block 5: the MAC (8 characters) and the checksum (12). */
  function Trailer(d: Draws): string
    requires ValidDraws(d)
  {
    TrailerText(HexString(d.mac), HexString(d.checksum))
  }

  /** The whole message for a given remittance text (the two formatters differ only there). */
  function MessageWith(t: Transaction, d: Draws, remittance: string): string
    requires Valid(t.timestamp) && ValidDraws(d)
  {
    HeaderBlocks(t) + Block4Text(Block4Fields(t, d, remittance)) + Trailer(d)
  }

  /** Block 4: its opening line, the rendered fields and the closing brace. */
  function Block4Text(fs: seq<Field>): string {
    "\n{4:\n" + RenderFields(fs) + "}"
  }

  /** What MT103MessageFormatter.formatToMT103 produces. */
  function Mt103Message(t: Transaction, d: Draws): string
    requires Valid(t.timestamp) && ValidDraws(d)
  {
    MessageWith(t, d, BuildRemittanceInfo(t))
  }

  // ---------------------------------------------------------------------------
  // Properties of the message
  // ---------------------------------------------------------------------------

  /** Where each group sits in a concatenation of six groups. */
  lemma Layout(m: seq<Field>, a: seq<Field>, p0: seq<Field>, p1: seq<Field>, p2: seq<Field>, o: seq<Field>)
    ensures var fs := m + a + (p0 + p1 + p2) + o;
      var i1 := |m|; var i2 := i1 + |a|; var i3 := i2 + |p0|; var i4 := i3 + |p1|; var i5 := i4 + |p2|;
      |fs| == i5 + |o|
      && fs[..i1] == m && fs[i1..i2] == a && fs[i2..i3] == p0 && fs[i3..i4] == p1 && fs[i4..i5] == p2
      && fs[i5..] == o
  {
  }

  /** Block 4 is the mandatory, accounting, party (ordering side, intermediary, beneficiary side)
      and optional groups, in this order. */
  lemma Block4Groups(t: Transaction, d: Draws, remittance: string)
    requires Valid(t.timestamp) && ValidDraws(d)
    ensures var fs := Block4Fields(t, d, remittance);
      var k := |IntermediaryParty(t)|;
      |fs| == 12 + k
      && fs[..3] == MandatoryFields(t, TruncateToLength(t.transactionId, 16))
      && fs[3..5] == AccountingFields(t)
      && fs[5..8] == OrderingParty(t, d)
      && fs[8..8 + k] == IntermediaryParty(t)
      && fs[8 + k..10 + k] == BeneficiaryParty(t, d)
      && fs[10 + k..] == OptionalFields(t, remittance)
  {
    var m, a, o := MandatoryFields(t, TruncateToLength(t.transactionId, 16)), AccountingFields(t), OptionalFields(t, remittance);
    var p0, p1, p2 := OrderingParty(t, d), IntermediaryParty(t), BeneficiaryParty(t, d);
    assert Block4Fields(t, d, remittance) == m + a + (p0 + p1 + p2) + o;
    GroupSizes(t, d, remittance);
    Layout(m, a, p0, p1, p2, o);
  }

  lemma GroupSizes(t: Transaction, d: Draws, remittance: string)
    requires Valid(t.timestamp) && ValidDraws(d)
    ensures |MandatoryFields(t, TruncateToLength(t.transactionId, 16))| == 3 && |AccountingFields(t)| == 2
    ensures |OrderingParty(t, d)| == 3 && |BeneficiaryParty(t, d)| == 2 && |OptionalFields(t, remittance)| == 2
  {
  }

  lemma Tags2(x: Field, y: Field)
    ensures Tags([x, y]) == [x.tag, y.tag]
  {
  }

  lemma Tags3(x: Field, y: Field, z: Field)
    ensures Tags([x, y, z]) == [x.tag, y.tag, z.tag]
  {
  }

  lemma GroupTags(t: Transaction, d: Draws, remittance: string)
    requires Valid(t.timestamp) && ValidDraws(d)
    ensures Tags(MandatoryFields(t, TruncateToLength(t.transactionId, 16))) == ["20", "23B", "32A"]
    ensures Tags(AccountingFields(t)) == ["33B", "71A"]
    ensures Tags(OrderingParty(t, d)) == ["50K", "52A", "53B"]
    ensures Tags(BeneficiaryParty(t, d)) == ["57A", "59"]
    ensures Tags(OptionalFields(t, remittance)) == ["70", "72"]
  {
    var m := MandatoryFields(t, TruncateToLength(t.transactionId, 16));
    Tags3(m[0], m[1], m[2]);
    assert m == [m[0], m[1], m[2]];
    var a := AccountingFields(t);
    Tags2(a[0], a[1]);
    assert a == [a[0], a[1]];
    var p0 := OrderingParty(t, d);
    Tags3(p0[0], p0[1], p0[2]);
    assert p0 == [p0[0], p0[1], p0[2]];
    var p2 := BeneficiaryParty(t, d);
    Tags2(p2[0], p2[1]);
    assert p2 == [p2[0], p2[1]];
    var o := OptionalFields(t, remittance);
    Tags2(o[0], o[1]);
    assert o == [o[0], o[1]];
  }

  /** Block 4 holds tags 20, 23B, 32A, 33B, 71A, 50K, 52A, 53B, [56A], 57A, 59, 70, 72 in this
      order, 56A exactly when an intermediary is needed. */
  lemma Block4TagOrder(t: Transaction, d: Draws, remittance: string)
    requires Valid(t.timestamp) && ValidDraws(d)
    ensures Tags(Block4Fields(t, d, remittance)) ==
      ["20", "23B", "32A", "33B", "71A", "50K", "52A", "53B"]
      + (if NeedsIntermediaryBank(t) then ["56A"] else [])
      + ["57A", "59", "70", "72"]
  {
    var m, a, o := MandatoryFields(t, TruncateToLength(t.transactionId, 16)), AccountingFields(t), OptionalFields(t, remittance);
    var p0, p1, p2 := OrderingParty(t, d), IntermediaryParty(t), BeneficiaryParty(t, d);
    GroupTags(t, d, remittance);
    TagsOfGroups(m, a, p0, p1, p2, o, if NeedsIntermediaryBank(t) then ["56A"] else []);
  }

  /** Field 20 and header field 108 carry the same reference: the identifier's first 16
      characters, or all of it when shorter (see TruncateToLength). */
  lemma ReferenceInBlocks3And4(t: Transaction, d: Draws, remittance: string)
    requires Valid(t.timestamp) && ValidDraws(d)
    ensures var ref := TruncateToLength(t.transactionId, 16);
      Block4Fields(t, d, remittance)[0] == Field("20", ref)
      && EndsWith(HeaderBlocks(t), "{3:{108:" + ref + "}}")
  {
    var fs := Block4Fields(t, d, remittance);
    Block4Groups(t, d, remittance);
    assert fs[0] == fs[..3][0];
    ReferenceInBlock3(t);
  }

  lemma ReferenceInBlock3(t: Transaction)
    ensures EndsWith(HeaderBlocks(t), "{3:{108:" + TruncateToLength(t.transactionId, 16) + "}}")
  {
    var sender, receiver := FormatLTAddress(t.fromBankSwift), FormatLTAddress(t.toBankSwift);
    HeaderEndsWithReference(sender, receiver, TruncateToLength(t.transactionId, 16));
  }

  lemma HeaderEndsWithReference(senderLTAddress: string, receiverLTAddress: string, transactionRef: string)
    ensures EndsWith(HeaderText(senderLTAddress, receiverLTAddress, transactionRef), "{3:{108:" + transactionRef + "}}")
  {
    var front := "{1:F01" + senderLTAddress + "}" + "{2:I103" + receiverLTAddress + "N}";
    var back := "{3:{108:" + transactionRef + "}}";
    assert HeaderText(senderLTAddress, receiverLTAddress, transactionRef) == front + back;
    assert (front + back)[|front|..] == back;
  }

  /** Fields 32A and 33B print the amount with a decimal comma, and no point. */
  lemma AmountsUseDecimalComma(t: Transaction, d: Draws, remittance: string)
    requires Valid(t.timestamp) && ValidDraws(d)
    ensures var fs := Block4Fields(t, d, remittance);
      var amount := FormatAmount(ToString(t.amount));
      fs[2].value == FormatYyMmDd(t.timestamp) + t.currency + amount
      && fs[3].value == t.currency + amount
      && '.' !in amount
      && ReplaceChar(amount, ',', '.') == ToString(t.amount)
  {
    var fs := Block4Fields(t, d, remittance);
    Block4Groups(t, d, remittance);
    assert fs[2] == fs[..3][2];
    assert fs[3] == fs[3..5][0];
    FormatAmountInverse(t.amount);
  }

  /** Field 71A is SHA exactly for cross-border transfers, OUR otherwise. */
  lemma ChargeBearerField(t: Transaction, d: Draws, remittance: string)
    requires Valid(t.timestamp) && ValidDraws(d)
    ensures var fs := Block4Fields(t, d, remittance);
      fs[4] == Field("71A", if IsCrossBorder(t) then "SHA" else "OUR")
  {
    var fs := Block4Fields(t, d, remittance);
    Block4Groups(t, d, remittance);
    assert fs[4] == fs[3..5][1];
  }

  /** Field 56A is present exactly when an intermediary is needed, and names the correspondent. */
  lemma IntermediaryField(t: Transaction, d: Draws, remittance: string)
    requires Valid(t.timestamp) && ValidDraws(d)
    ensures var fs := Block4Fields(t, d, remittance);
      (NeedsIntermediaryBank(t) <==> |fs| == 13)
      && (NeedsIntermediaryBank(t) ==> fs[8] == Field("56A", IntermediaryBankSwift(t)))
      && (forall i :: 0 <= i < |fs| && fs[i].tag == "56A" ==> NeedsIntermediaryBank(t) && i == 8)
  {
    Block4Groups(t, d, remittance);
    Block4TagOrder(t, d, remittance);
    IntermediaryFieldPosition(Block4Fields(t, d, remittance), IntermediaryParty(t), NeedsIntermediaryBank(t));
  }

  lemma IntermediaryFieldPosition(fs: seq<Field>, party: seq<Field>, needed: bool)
    requires |fs| == 12 + |party| && fs[8..8 + |party|] == party
    requires Tags(fs) == ["20", "23B", "32A", "33B", "71A", "50K", "52A", "53B"]
      + (if needed then ["56A"] else []) + ["57A", "59", "70", "72"]
    ensures needed <==> |fs| == 13
    ensures needed ==> fs[8] == party[0]
    ensures forall i :: 0 <= i < |fs| && fs[i].tag == "56A" ==> needed && i == 8
  {
    var tags := Tags(fs);
    if needed {
      assert fs[8] == fs[8..8 + |party|][0];
    }
    IntermediaryTagPosition(tags, needed);
    forall i | 0 <= i < |fs| && fs[i].tag == "56A" ensures needed && i == 8 {
      assert tags[i] == "56A";
    }
  }

  lemma IntermediaryTagPosition(tags: seq<string>, needed: bool)
    requires tags == ["20", "23B", "32A", "33B", "71A", "50K", "52A", "53B"]
      + (if needed then ["56A"] else []) + ["57A", "59", "70", "72"]
    ensures forall i :: 0 <= i < |tags| && tags[i] == "56A" ==> needed && i == 8
  {
  }

  /** Fields 50K and 59 open with "/" and the IBAN when it is usable, else the account number. */
  lemma CustomerAccountLines(t: Transaction, d: Draws, remittance: string)
    requires Valid(t.timestamp) && ValidDraws(d)
    ensures var fs := Block4Fields(t, d, remittance);
      var k := if NeedsIntermediaryBank(t) then 10 else 9;
      StartsWith(fs[5].value, "/" + (if HasValidIBAN(t.fromIBAN) then t.fromIBAN.value else t.fromAccount) + "\n")
      && fs[k].tag == "59"
      && StartsWith(fs[k].value, "/" + (if HasValidIBAN(t.toIBAN) then t.toIBAN.value else t.toAccount) + "\n")
  {
    var fs := Block4Fields(t, d, remittance);
    var k := if NeedsIntermediaryBank(t) then 10 else 9;
    Block4Groups(t, d, remittance);
    assert fs[5] == fs[5..8][0];
    assert fs[k] == fs[k - 1..k + 1][1];
    CustomerFieldOpens("50K", t.fromIBAN, t.fromAccount, t.fromBankName, AddressTemplates[d.fromAddress], t.fromCountryCode);
    CustomerFieldOpens("59", t.toIBAN, t.toAccount, t.toBankName, AddressTemplates[d.toAddress], t.toCountryCode);
  }

  lemma CustomerFieldOpens(tag: string, iban: Option<string>, account: string, bankName: string,
                           address: string, countryCode: Option<string>)
    ensures var f := CustomerField(tag, iban, account, bankName, address, countryCode);
      f.tag == tag && StartsWith(f.value, "/" + (if HasValidIBAN(iban) then iban.value else account) + "\n")
  {
    var first := AccountLine(iban, account);
    var city := GenerateCityCountry(countryCode);
    LinesRegroup(first, bankName, address, city);
    PrefixOfConcat(first + "\n", bankName + "\n" + address + "\n" + city);
  }

  lemma LinesRegroup(a: string, b: string, c: string, d: string)
    ensures a + "\n" + b + "\n" + c + "\n" + d == (a + "\n") + (b + "\n" + c + "\n" + d)
  {
  }

  lemma PrefixOfConcat(line: string, rest: string)
    ensures StartsWith(line + rest, line)
  {
    assert (line + rest)[..|line|] == line;
  }

  /** Block 5 around a MAC and a checksum. */
  function TrailerText(mac: string, checksum: string): string {
    "\n{5:{MAC:" + mac + "}{CHK:" + checksum + "}}"
  }

  /** The trailer is "{5:{MAC:" + 8 HEX_CHARS + "}{CHK:" + 12 HEX_CHARS + "}}". */
  lemma TrailerShape(d: Draws)
    requires ValidDraws(d)
    ensures var tr := Trailer(d);
      |tr| == 37 && tr[..9] == "\n{5:{MAC:" && tr[17..23] == "}{CHK:" && tr[35..] == "}}"
      && (forall i :: 9 <= i < 17 ==> tr[i] in HexChars)
      && (forall i :: 23 <= i < 35 ==> tr[i] in HexChars)
  {
    var mac, chk := HexString(d.mac), HexString(d.checksum);
    TrailerLayout(mac, chk);
  }

  lemma TrailerLayout(mac: string, chk: string)
    requires |mac| == 8 && |chk| == 12
    ensures var tr := TrailerText(mac, chk);
      |tr| == 37 && tr[..9] == "\n{5:{MAC:" && tr[9..17] == mac && tr[17..23] == "}{CHK:"
      && tr[23..35] == chk && tr[35..] == "}}"
  {
  }

  // ---------------------------------------------------------------------------
  // The formatter, step by step
  // ---------------------------------------------------------------------------

  method AppendFields(sb: StringBuilder, fs: seq<Field>)
    modifies sb
    ensures sb.text == old(sb.text) + RenderFields(fs)
  {
    var i := 0;
    while i < |fs|
      invariant 0 <= i <= |fs|
      invariant sb.text == old(sb.text) + RenderFields(fs[..i])
    {
      ghost var before := sb.text;
      AppendEnclosed(sb, ":" + fs[i].tag + ":", fs[i].value, "\n");
      RenderOne(fs[..i], fs[i]);
      assert fs[..i + 1] == fs[..i] + [fs[i]];
      Grown2(old(sb.text), before, sb.text, RenderFields(fs[..i]), RenderField(fs[i]));
      i := i + 1;
    }
    assert fs[..|fs|] == fs;
  }

  /** Appends an opening marker, a value and a closing marker. */
  method AppendEnclosed(sb: StringBuilder, open: string, value: string, close: string)
    modifies sb
    ensures sb.text == old(sb.text) + (open + value + close)
  {
    sb.Append(open);
    sb.Append(value);
    sb.Append(close);
  }

  /** appendHeader: blocks 1, 2 and 3. */
  method AppendHeader(sb: StringBuilder, t: Transaction)
    modifies sb
    ensures sb.text == old(sb.text) + HeaderBlocks(t)
  {
    var senderLTAddress := FormatLTAddress(t.fromBankSwift);
    var receiverLTAddress := FormatLTAddress(t.toBankSwift);
    var transactionRef := TruncateToLength(t.transactionId, 16);
    AppendHeaderText(sb, senderLTAddress, receiverLTAddress, transactionRef);
  }

  method AppendHeaderText(sb: StringBuilder, senderLTAddress: string, receiverLTAddress: string, transactionRef: string)
    modifies sb
    ensures sb.text == old(sb.text) + HeaderText(senderLTAddress, receiverLTAddress, transactionRef)
  {
    AppendEnclosed(sb, "{1:F01", senderLTAddress, "}");
    AppendEnclosed(sb, "{2:I103", receiverLTAddress, "N}");
    AppendEnclosed(sb, "{3:{108:", transactionRef, "}}");
  }

  /** appendMandatoryFields: 20, 23B, 32A. */
  method AppendMandatoryFields(sb: StringBuilder, t: Transaction, transactionRef: string)
    requires Valid(t.timestamp)
    modifies sb
    ensures sb.text == old(sb.text) + RenderFields(MandatoryFields(t, transactionRef))
  {
    var valueDate := FormatYyMmDd(t.timestamp);
    var formattedAmount := FormatAmount(ToString(t.amount));
    AppendFields(sb, [Field("20", transactionRef), Field("23B", "CRED"),
                      Field("32A", valueDate + t.currency + formattedAmount)]);
  }

  /** appendAccountingFields: 33B, 71A. */
  method AppendAccountingFields(sb: StringBuilder, t: Transaction)
    modifies sb
    ensures sb.text == old(sb.text) + RenderFields(AccountingFields(t))
  {
    var formattedAmount := FormatAmount(ToString(t.amount));
    var chargeBearer := if IsCrossBorder(t) then "SHA" else "OUR";
    AppendFields(sb, [Field("33B", t.currency + formattedAmount), Field("71A", chargeBearer)]);
  }

  /** appendPartyFields: ordering customer, ordering institution, sender's correspondent,
      intermediary (when needed), account-with institution, beneficiary. */
  method AppendPartyFields(sb: StringBuilder, t: Transaction, d: Draws)
    requires ValidDraws(d)
    modifies sb
    ensures sb.text == old(sb.text) + RenderFields(PartyFields(t, d))
  {
    ghost var s0 := sb.text;
    AppendFields(sb, OrderingParty(t, d));
    ghost var s1 := sb.text;
    if NeedsIntermediaryBank(t) {
      AppendFields(sb, IntermediaryParty(t));
    }
    ghost var s2 := sb.text;
    AppendFields(sb, BeneficiaryParty(t, d));
    AppendedGroups3(s0, s1, s2, sb.text, OrderingParty(t, d), IntermediaryParty(t), BeneficiaryParty(t, d));
  }

  /** appendOptionalFields: 70 with the remittance text, 72 with the sender's BIC. */
  method AppendOptionalFields(sb: StringBuilder, t: Transaction, remittanceInfo: string)
    modifies sb
    ensures sb.text == old(sb.text) + RenderFields(OptionalFields(t, remittanceInfo))
  {
    AppendFields(sb, [Field("70", remittanceInfo), Field("72", "/INS/" + t.fromBankSwift)]);
  }

  /** appendMessageText: block 4 around the four field groups. */
  method AppendMessageText(sb: StringBuilder, t: Transaction, transactionRef: string, d: Draws, remittanceInfo: string)
    requires Valid(t.timestamp) && ValidDraws(d)
    requires transactionRef == TruncateToLength(t.transactionId, 16)
    modifies sb
    ensures sb.text == old(sb.text) + Block4Text(Block4Fields(t, d, remittanceInfo))
  {
    ghost var start := sb.text;
    sb.Append("\n{4:\n");
    ghost var s0 := sb.text;
    AppendMandatoryFields(sb, t, transactionRef);
    ghost var s1 := sb.text;
    AppendAccountingFields(sb, t);
    ghost var s2 := sb.text;
    AppendPartyFields(sb, t, d);
    ghost var s3 := sb.text;
    AppendOptionalFields(sb, t, remittanceInfo);
    AppendedGroups4(s0, s1, s2, s3, sb.text, MandatoryFields(t, transactionRef), AccountingFields(t),
      PartyFields(t, d), OptionalFields(t, remittanceInfo));
    ghost var s4 := sb.text;
    sb.Append("}");
    Grown3(start, s0, s4, sb.text, "\n{4:\n", RenderFields(Block4Fields(t, d, remittanceInfo)), "}");
  }

  /** appendTrailer: block 5 with a fresh MAC and checksum. */
  method AppendTrailer(sb: StringBuilder, d: Draws)
    requires ValidDraws(d)
    modifies sb
    ensures sb.text == old(sb.text) + Trailer(d)
  {
    var mac := GenerateHexString(8, d.mac);
    var checksum := GenerateHexString(12, d.checksum);
    AppendTrailerText(sb, mac, checksum);
  }

  method AppendTrailerText(sb: StringBuilder, mac: string, checksum: string)
    modifies sb
    ensures sb.text == old(sb.text) + TrailerText(mac, checksum)
  {
    AppendEnclosed(sb, "\n{5:{MAC:", mac, "}{CHK:");
    ghost var mid := sb.text;
    sb.Append(checksum);
    sb.Append("}}");
    Grown3(old(sb.text), mid, mid + checksum, sb.text, "\n{5:{MAC:" + mac + "}{CHK:", checksum, "}}");
  }

  /** formatToMT103: header, block 4 and trailer, appended in this order. */
  method FormatToMt103(t: Transaction, d: Draws) returns (msg: string)
    requires Valid(t.timestamp) && ValidDraws(d)
    ensures msg == Mt103Message(t, d)
  {
    var mt103 := new StringBuilder();
    var transactionRef := TruncateToLength(t.transactionId, 16);
    AppendHeader(mt103, t);
    ghost var s1 := mt103.text;
    AppendMessageText(mt103, t, transactionRef, d, BuildRemittanceInfo(t));
    ghost var s2 := mt103.text;
    AppendTrailer(mt103, d);
    msg := mt103.text;
    Grown3("", s1, s2, msg, HeaderBlocks(t), Block4Text(Block4Fields(t, d, BuildRemittanceInfo(t))), Trailer(d));
  }
}
