/**
 * The fraud-scenario MT103 formatter: the same message as the plain formatter,
 * except that field 70 carries a remittance text chosen from the transaction's
 * characteristics. The round-amount test works on doubles and is an input here.
 */
module FraudFormatter {
  import opened Wrappers
  import opened JavaString
  import opened BigDec
  import opened Clock
  import opened GenTransaction
  import opened Mt103Formatter

  /** isOffHours: the hour lies in 2..5, both ends included. */
  predicate IsOffHours(timestamp: LocalDateTime) {
    timestamp.hour >= 2 && timestamp.hour <= 5
  }

  /** The branches of buildCharacteristicBasedRemittance, in priority order. */
  datatype RemittancePattern = LargeValue | RoundAmount | OffHours | Structuring | SmallAmount | CrossBorder | Commercial

  /** The conditions of the branches, in the order they are tried; the last always holds. */
  function PatternConditions(t: Transaction, isRoundAmount: bool): (c: seq<bool>)
    ensures |c| == 7 && c[6]
  {
    [ AtLeast(t.amount, BigDecimal(15000, 0)),
      isRoundAmount,
      IsOffHours(t.timestamp),
      AtLeast(t.amount, BigDecimal(9999, 0)) && Less(t.amount, BigDecimal(10000, 0)),
      Less(t.amount, BigDecimal(1000, 0)),
      IsCrossBorder(t),
      true ]
  }

  const Patterns: seq<RemittancePattern> := [LargeValue, RoundAmount, OffHours, Structuring, SmallAmount, CrossBorder, Commercial]

  /** The branch buildCharacteristicBasedRemittance takes: the if-else chain. */
  function Classify(t: Transaction, isRoundAmount: bool): RemittancePattern {
    if AtLeast(t.amount, BigDecimal(15000, 0)) then LargeValue
    else if isRoundAmount then RoundAmount
    else if IsOffHours(t.timestamp) then OffHours
    else if AtLeast(t.amount, BigDecimal(9999, 0)) && Less(t.amount, BigDecimal(10000, 0)) then Structuring
    else if Less(t.amount, BigDecimal(1000, 0)) then SmallAmount
    else if IsCrossBorder(t) then CrossBorder
    else Commercial
  }

  /** First match wins: branch k is taken exactly when its condition holds and no earlier one does. */
  lemma FirstMatchWins(t: Transaction, isRoundAmount: bool, k: nat)
    requires k < 7
    ensures var c := PatternConditions(t, isRoundAmount);
      Classify(t, isRoundAmount) == Patterns[k] <==> c[k] && forall j :: 0 <= j < k ==> !c[j]
  {
    var c := PatternConditions(t, isRoundAmount);
    var none := forall j :: 0 <= j < k ==> !c[j];
    assert none <==> ((k > 0 ==> !c[0]) && (k > 1 ==> !c[1]) && (k > 2 ==> !c[2])
                      && (k > 3 ==> !c[3]) && (k > 4 ==> !c[4]) && (k > 5 ==> !c[5]));
  }

  /** The remittance text of each branch; only the small-amount one carries no reference. */
  function PatternText(p: RemittancePattern, shortId: string): string {
    match p
    case LargeValue => "Large value transfer - Ref: " + shortId
    case RoundAmount => "Business payment - Invoice: " + shortId
    case OffHours => "Urgent payment required - Ref: " + shortId
    case Structuring => "Trade settlement - Contract: " + shortId
    case SmallAmount => "Service payment - Multiple invoices"
    case CrossBorder => "International trade payment - Ref: " + shortId
    case Commercial => "Commercial payment - TXN: " + shortId
  }

  /** Which branch produced a remittance text, read back from its fixed opening words. */
  function PatternOf(text: string): Option<RemittancePattern> {
    if StartsWith(text, "Large value transfer - Ref: ") then Some(LargeValue)
    else if StartsWith(text, "Business payment - Invoice: ") then Some(RoundAmount)
    else if StartsWith(text, "Urgent payment required - Ref: ") then Some(OffHours)
    else if StartsWith(text, "Trade settlement - Contract: ") then Some(Structuring)
    else if text == "Service payment - Multiple invoices" then Some(SmallAmount)
    else if StartsWith(text, "International trade payment - Ref: ") then Some(CrossBorder)
    else if StartsWith(text, "Commercial payment - TXN: ") then Some(Commercial)
    else None
  }

  /** A string opening with `p` starts with `p` and with no prefix whose first character differs. */
  lemma Opening(p: string, s: string, q: string)
    requires |p| > 0 && |q| > 0
    ensures StartsWith(p + s, p)
    ensures q[0] != p[0] ==> !StartsWith(p + s, q) && p + s != q
  {
    assert (p + s)[..|p|] == p;
    if q[0] != p[0] && |q| <= |p + s| {
      assert (p + s)[..|q|][0] == (p + s)[0] == p[0];
    }
  }

  /** Each branch's text reads back as that branch, whatever the reference: the seven texts open
      with different letters. */
  lemma PatternTextDecodes(p: RemittancePattern, shortId: string)
    ensures PatternOf(PatternText(p, shortId)) == Some(p)
  {
    var l, b, u, tr := "Large value transfer - Ref: ", "Business payment - Invoice: ",
      "Urgent payment required - Ref: ", "Trade settlement - Contract: ";
    var sm, i, c := "Service payment - Multiple invoices", "International trade payment - Ref: ",
      "Commercial payment - TXN: ";
    match p
    case LargeValue => Opening(l, shortId, l);
    case RoundAmount => Opening(b, shortId, l);
    case OffHours => Opening(u, shortId, l); Opening(u, shortId, b);
    case Structuring => Opening(tr, shortId, l); Opening(tr, shortId, b); Opening(tr, shortId, u);
    case SmallAmount =>
      Opening(sm, "", l); Opening(sm, "", b); Opening(sm, "", u); Opening(sm, "", tr);
      assert sm + "" == sm;
    case CrossBorder =>
      Opening(i, shortId, l); Opening(i, shortId, b); Opening(i, shortId, u); Opening(i, shortId, tr);
      Opening(i, shortId, sm);
    case Commercial =>
      Opening(c, shortId, l); Opening(c, shortId, b); Opening(c, shortId, u); Opening(c, shortId, tr);
      Opening(c, shortId, sm); Opening(c, shortId, i);
  }

  /** Every text but the small-amount one closes with the reference. */
  lemma PatternTextEndsWithReference(p: RemittancePattern, shortId: string)
    ensures p != SmallAmount ==> EndsWith(PatternText(p, shortId), shortId)
  {
    match p
    case LargeValue => ClosesWith("Large value transfer - Ref: ", shortId);
    case RoundAmount => ClosesWith("Business payment - Invoice: ", shortId);
    case OffHours => ClosesWith("Urgent payment required - Ref: ", shortId);
    case Structuring => ClosesWith("Trade settlement - Contract: ", shortId);
    case SmallAmount =>
    case CrossBorder => ClosesWith("International trade payment - Ref: ", shortId);
    case Commercial => ClosesWith("Commercial payment - TXN: ", shortId);
  }

  lemma ClosesWith(opening: string, s: string)
    ensures EndsWith(opening + s, s)
  {
    assert (opening + s)[|opening|..] == s;
  }

  /** buildCharacteristicBasedRemittance: the text of the branch taken, with the first eight
      identifier characters as reference. */
  function CharacteristicRemittance(t: Transaction, isRoundAmount: bool): (r: string)
    ensures PatternOf(r) == Some(Classify(t, isRoundAmount))
    ensures Classify(t, isRoundAmount) != SmallAmount ==> EndsWith(r, TruncateToLength(t.transactionId, 8))
  {
    var shortTransactionId := TruncateToLength(t.transactionId, 8);
    PatternTextDecodes(Classify(t, isRoundAmount), shortTransactionId);
    PatternTextEndsWithReference(Classify(t, isRoundAmount), shortTransactionId);
    PatternText(Classify(t, isRoundAmount), shortTransactionId)
  }

  /** An amount of 15000 or more (compared by value) always gives the large-value text with the
      first eight identifier characters, whatever the other characteristics. */
  lemma LargeValueDominates(t: Transaction, isRoundAmount: bool)
    requires CompareTo(t.amount, BigDecimal(15000, 0)) >= 0
    ensures CharacteristicRemittance(t, isRoundAmount) == "Large value transfer - Ref: " + TruncateToLength(t.transactionId, 8)
  {
  }

  /** The small-amount text is chosen exactly for amounts under 1000 that are not round and not
      off-hours, and it is the one text without a reference. */
  lemma SmallAmountCarriesNoReference(t: Transaction, isRoundAmount: bool)
    ensures CharacteristicRemittance(t, isRoundAmount) == "Service payment - Multiple invoices"
      <==> Less(t.amount, BigDecimal(1000, 0)) && !isRoundAmount && !IsOffHours(t.timestamp)
  {
    var r := CharacteristicRemittance(t, isRoundAmount);
    var sm := "Service payment - Multiple invoices";
    assert PatternOf(sm) == Some(SmallAmount) by { PatternTextDecodes(SmallAmount, ""); }
    CompareToTransitive(t.amount, BigDecimal(1000, 0), BigDecimal(9999, 0));
    CompareToTransitive(t.amount, BigDecimal(1000, 0), BigDecimal(15000, 0));
  }

  /** The text depends on nothing but the amount's value, the round-amount answer, the hour,
      the cross-border status and the first eight identifier characters. */
  lemma RemittanceInputs(t: Transaction, u: Transaction, isRoundAmount: bool)
    requires CompareTo(t.amount, u.amount) == 0
    requires t.timestamp.hour == u.timestamp.hour
    requires IsCrossBorder(t) == IsCrossBorder(u)
    requires TruncateToLength(t.transactionId, 8) == TruncateToLength(u.transactionId, 8)
    ensures CharacteristicRemittance(t, isRoundAmount) == CharacteristicRemittance(u, isRoundAmount)
  {
    SameComparisons(t.amount, u.amount, BigDecimal(15000, 0));
    SameComparisons(t.amount, u.amount, BigDecimal(9999, 0));
    SameComparisons(t.amount, u.amount, BigDecimal(10000, 0));
    SameComparisons(t.amount, u.amount, BigDecimal(1000, 0));
    assert Classify(t, isRoundAmount) == Classify(u, isRoundAmount);
  }

  /** Numbers equal by compareTo compare alike with any third number. */
  lemma SameComparisons(a: BigDecimal, b: BigDecimal, c: BigDecimal)
    requires CompareTo(a, b) == 0
    ensures CompareTo(a, c) == CompareTo(b, c)
  {
    var s := Max(Max(a.scale, b.scale), c.scale);
    CompareToAtAnyScale(a, b, s);
    CompareToAtAnyScale(a, c, s);
    CompareToAtAnyScale(b, c, s);
  }

  /** What FraudMT103MessageFormatter.formatToMT103 produces. */
  function FraudMt103Message(t: Transaction, d: Draws, isRoundAmount: bool): string
    requires Valid(t.timestamp) && ValidDraws(d)
  {
    MessageWith(t, d, CharacteristicRemittance(t, isRoundAmount))
  }

  /** The fraud message has the plain message's header, trailer and block-4 fields, field 70
      alone excepted. */
  lemma SameShapeAsPlainMessage(t: Transaction, d: Draws, isRoundAmount: bool)
    requires Valid(t.timestamp) && ValidDraws(d)
    ensures var fraud := Block4Fields(t, d, CharacteristicRemittance(t, isRoundAmount));
      var plain := Block4Fields(t, d, BuildRemittanceInfo(t));
      |fraud| == |plain|
      && (forall i :: 0 <= i < |fraud| && fraud[i].tag != "70" ==> fraud[i] == plain[i])
      && fraud[|fraud| - 2] == Field("70", CharacteristicRemittance(t, isRoundAmount))
      && plain[|plain| - 2] == Field("70", BuildRemittanceInfo(t))
  {
    var r1, r2 := CharacteristicRemittance(t, isRoundAmount), BuildRemittanceInfo(t);
    var pre := MandatoryFields(t, TruncateToLength(t.transactionId, 16)) + AccountingFields(t) + PartyFields(t, d);
    assert Block4Fields(t, d, r1) == pre + OptionalFields(t, r1);
    assert Block4Fields(t, d, r2) == pre + OptionalFields(t, r2);
    SameBesideRemittance(pre, OptionalFields(t, r1), OptionalFields(t, r2));
  }

  /** Two field lists that share everything but a final field 70 agree outside it. */
  lemma SameBesideRemittance(pre: seq<Field>, o1: seq<Field>, o2: seq<Field>)
    requires |o1| == 2 && |o2| == 2 && o1[0].tag == "70" && o1[1] == o2[1]
    ensures var f, p := pre + o1, pre + o2;
      |f| == |p| && (forall i :: 0 <= i < |f| && f[i].tag != "70" ==> f[i] == p[i])
      && f[|f| - 2] == o1[0] && p[|p| - 2] == o2[0]
  {
  }

  /** appendFraudSpecificOptionalFields: 70 with the characteristic text, 72 as usual. */
  method AppendFraudSpecificOptionalFields(sb: StringBuilder, t: Transaction, isRoundAmount: bool)
    modifies sb
    ensures sb.text == old(sb.text) + RenderFields(OptionalFields(t, CharacteristicRemittance(t, isRoundAmount)))
  {
    var remittanceInfo := CharacteristicRemittance(t, isRoundAmount);
    AppendOptionalFields(sb, t, remittanceInfo);
  }

  /** appendMessageTextWithFraudInfo: block 4 with the fraud remittance text. */
  method AppendMessageTextWithFraudInfo(sb: StringBuilder, t: Transaction, transactionRef: string, d: Draws, isRoundAmount: bool)
    requires Valid(t.timestamp) && ValidDraws(d)
    requires transactionRef == TruncateToLength(t.transactionId, 16)
    modifies sb
    ensures sb.text == old(sb.text) + Block4Text(Block4Fields(t, d, CharacteristicRemittance(t, isRoundAmount)))
  {
    var remittanceInfo := CharacteristicRemittance(t, isRoundAmount);
    ghost var start := sb.text;
    sb.Append("\n{4:\n");
    ghost var s0 := sb.text;
    AppendMandatoryFields(sb, t, transactionRef);
    ghost var s1 := sb.text;
    AppendAccountingFields(sb, t);
    ghost var s2 := sb.text;
    AppendPartyFields(sb, t, d);
    ghost var s3 := sb.text;
    AppendFraudSpecificOptionalFields(sb, t, isRoundAmount);
    AppendedGroups4(s0, s1, s2, s3, sb.text, MandatoryFields(t, transactionRef), AccountingFields(t),
      PartyFields(t, d), OptionalFields(t, remittanceInfo));
    ghost var s4 := sb.text;
    sb.Append("}");
    Grown3(start, s0, s4, sb.text, "\n{4:\n", RenderFields(Block4Fields(t, d, remittanceInfo)), "}");
  }

  /** formatToMT103 of the fraud formatter. */
  method FormatToMt103(t: Transaction, d: Draws, isRoundAmount: bool) returns (msg: string)
    requires Valid(t.timestamp) && ValidDraws(d)
    ensures msg == FraudMt103Message(t, d, isRoundAmount)
  {
    var mt103 := new StringBuilder();
    var transactionRef := TruncateToLength(t.transactionId, 16);
    AppendHeader(mt103, t);
    ghost var s1 := mt103.text;
    AppendMessageTextWithFraudInfo(mt103, t, transactionRef, d, isRoundAmount);
    ghost var s2 := mt103.text;
    AppendTrailer(mt103, d);
    msg := mt103.text;
    Grown3("", s1, s2, msg, HeaderBlocks(t), Block4Text(Block4Fields(t, d, CharacteristicRemittance(t, isRoundAmount))), Trailer(d));
  }
}
