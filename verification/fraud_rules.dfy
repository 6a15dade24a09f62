/**
 * The stateless fraud rules of the alert service's rule engine. Each looks at the
 * transaction inside an MT103 event and answers whether it is suspicious; a rule that
 * dereferences a null field throws, which is modelled as None.
 */
module FraudRules {
  import opened Wrappers
  import opened JavaString
  import opened BigDec
  import opened Clock
  import opened AlertModel

  datatype Rule = HighRiskCountryRule | ThresholdAvoidanceRule | HighAmountRule | OffHoursRule | SuspiciousRemittanceRule

  /** getRuleName. */
  function RuleName(r: Rule): string {
    match r
    case HighRiskCountryRule => "HIGH_RISK_COUNTRY_DETECTION"
    case ThresholdAvoidanceRule => "THRESHOLD_AVOIDANCE_DETECTION"
    case HighAmountRule => "HIGH_AMOUNT_DETECTION"
    case OffHoursRule => "OFF_HOURS_DETECTION"
    case SuspiciousRemittanceRule => "SUSPICIOUS_REMITTANCE_DETECTION"
  }

  /** getDescription, character for character (the high-amount text carries the
      mis-decoded form of the greater-or-equal sign that its source file holds). */
  function RuleDescription(r: Rule): string {
    match r
    case HighRiskCountryRule =>
      "Detects transactions to/from high-risk countries " + "(AF, IR, KP, MM, SY, YE)"
    case ThresholdAvoidanceRule =>
      "Detects transactions just below \U{20AC}10,000 reporting threshold " + "(\U{20AC}9900-\U{20AC}9999.99)"
    case HighAmountRule =>
      "Detects transactions with amounts \U{00E2}\U{2030}\U{00A5} 1,000,000 " + "(or equivalent) - Large value transfers"
    case OffHoursRule =>
      "Detects transactions occurring during off-hours " + "(23:00-05:59) - Unusual timing patterns"
    case SuspiciousRemittanceRule =>
      "Detects transactions with suspicious pattern amounts " + "(999, 9999, 99999, 999999)"
  }

  // ---------------------------------------------------------------------------
  // The rules
  // ---------------------------------------------------------------------------

  const HighRiskCountrySet: set<string> := {"AF", "IR", "KP", "MM", "SY", "YE"}

  /** Set.of(...).contains throws on null, so both codes must be present. */
  function HighRiskCountry(t: Transaction): Option<bool> {
    if t.toCountryCode.None? || t.fromCountryCode.None? then None
    else Some(t.toCountryCode.value in HighRiskCountrySet || t.fromCountryCode.value in HighRiskCountrySet)
  }

  /** 10000.00, 9999.99, 9900.00 and 9990.00 */
  const ReportingThreshold: BigDecimal := BigDecimal(1000000, 2)
  const SuspiciousExactAmount: BigDecimal := BigDecimal(999999, 2)
  const ThresholdRangeStart: BigDecimal := BigDecimal(990000, 2)
  const VerySuspiciousStart: BigDecimal := BigDecimal(999000, 2)

  /** Exactly 9999.99, or 9990.00 up to 9999.99 exclusive, or 9900.00 up to 10000.00
      exclusive, all by compareTo. */
  function ThresholdAvoidance(t: Transaction): Option<bool> {
    match t.amount
    case None => None
    case Some(amount) =>
      var isExact := CompareTo(amount, SuspiciousExactAmount) == 0;
      var isVerySuspicious := CompareTo(amount, VerySuspiciousStart) >= 0 && CompareTo(amount, SuspiciousExactAmount) < 0;
      var isSuspiciousRange := CompareTo(amount, ThresholdRangeStart) >= 0 && CompareTo(amount, ReportingThreshold) < 0;
      Some(isExact || isVerySuspicious || isSuspiciousRange)
  }

  /** 1000000 */
  const HighAmountLimit: BigDecimal := BigDecimal(1000000, 0)

  /** convertToEur: fixed rates for USD, GBP and CHF on the upper-cased currency; any
      other currency is taken as euros. */
  function ConvertToEur(amount: BigDecimal, currency: string): BigDecimal {
    var c := ToUpper(currency);
    if c == "EUR" then amount
    else if c == "USD" then Multiply(amount, BigDecimal(85, 2))
    else if c == "GBP" then Multiply(amount, BigDecimal(115, 2))
    else if c == "CHF" then Multiply(amount, BigDecimal(92, 2))
    else amount
  }

  /** A null currency throws in toUpperCase, a null amount in the comparison or the
      multiplication. */
  function HighAmount(t: Transaction): Option<bool> {
    if t.currency.None? || t.amount.None? then None
    else Some(AtLeast(ConvertToEur(t.amount.value, t.currency.value), HighAmountLimit))
  }

  /** 23:00 and 06:00 as nanoseconds since midnight. */
  const OffHoursStart: int := 23 * 3600 * 1000000000
  const OffHoursEnd: int := 6 * 3600 * 1000000000

  /** isOffHoursTime: after 22:59:59.999999999 or before 06:00. */
  function OffHours(t: Transaction): Option<bool> {
    match t.timestamp
    case None => None
    case Some(ts) => Some(NanoOfDay(ts) > OffHoursStart - 1 || NanoOfDay(ts) < OffHoursEnd)
  }

  /** The four pattern amounts, each at scale 0. */
  const SuspiciousPatternAmounts: set<BigDecimal> :=
    {BigDecimal(999, 0), BigDecimal(9999, 0), BigDecimal(99999, 0), BigDecimal(999999, 0)}

  /** Set membership, which goes by BigDecimal.equals (value and scale) and throws on null. */
  function SuspiciousRemittanceAmount(t: Transaction): Option<bool> {
    match t.amount
    case None => None
    case Some(amount) => Some(amount in SuspiciousPatternAmounts)
  }

  /** isSuspicious, dispatched on the rule. */
  function IsSuspicious(r: Rule, event: TransactionWithMt103Event): Option<bool> {
    var t := event.transaction;
    match r
    case HighRiskCountryRule => HighRiskCountry(t)
    case ThresholdAvoidanceRule => ThresholdAvoidance(t)
    case HighAmountRule => HighAmount(t)
    case OffHoursRule => OffHours(t)
    case SuspiciousRemittanceRule => SuspiciousRemittanceAmount(t)
  }

  // ---------------------------------------------------------------------------
  // Properties
  // ---------------------------------------------------------------------------

  /** High-risk country: throws unless both codes are present; then suspicious exactly
      when either is one of the six, whichever direction the money goes. */
  lemma HighRiskCountryIff(event: TransactionWithMt103Event)
    ensures IsSuspicious(HighRiskCountryRule, event).None? <==>
      event.transaction.toCountryCode.None? || event.transaction.fromCountryCode.None?
    ensures IsSuspicious(HighRiskCountryRule, event).Some? ==>
      (IsSuspicious(HighRiskCountryRule, event).value <==>
       event.transaction.toCountryCode.value in {"AF", "IR", "KP", "MM", "SY", "YE"}
       || event.transaction.fromCountryCode.value in {"AF", "IR", "KP", "MM", "SY", "YE"})
    ensures var t := event.transaction;
      IsSuspicious(HighRiskCountryRule, event)
      == IsSuspicious(HighRiskCountryRule, event.(transaction := t.(toCountryCode := t.fromCountryCode, fromCountryCode := t.toCountryCode)))
  {
  }

  /** Threshold avoidance: the exact-amount and very-suspicious checks lie inside the
      range check, so the rule fires exactly when 9900.00 <= amount < 10000.00 by value. */
  lemma ThresholdAvoidanceBand(event: TransactionWithMt103Event)
    ensures IsSuspicious(ThresholdAvoidanceRule, event).None? <==> event.transaction.amount.None?
    ensures event.transaction.amount.Some? ==>
      IsSuspicious(ThresholdAvoidanceRule, event).value ==
        (AtLeast(event.transaction.amount.value, BigDecimal(990000, 2))
         && Less(event.transaction.amount.value, BigDecimal(1000000, 2)))
  {
    if event.transaction.amount.Some? {
      var a := event.transaction.amount.value;
      CompareToTransitive(ThresholdRangeStart, VerySuspiciousStart, a);
      CompareToAntisymmetric(a, VerySuspiciousStart);
      CompareToAntisymmetric(a, ThresholdRangeStart);
      CompareToAntisymmetric(a, SuspiciousExactAmount);
      CompareToTransitive(ThresholdRangeStart, SuspiciousExactAmount, a);
      CompareToTransitive(a, SuspiciousExactAmount, ReportingThreshold);
    }
  }

  /** The threshold rule compares by value: 9900 written without decimals is caught like
      9900.00, and 10000 is not. */
  lemma ThresholdAvoidanceByValue(event: TransactionWithMt103Event)
    ensures event.transaction.amount == Some(BigDecimal(9900, 0)) ==> IsSuspicious(ThresholdAvoidanceRule, event) == Some(true)
    ensures event.transaction.amount == Some(BigDecimal(10000, 0)) ==> IsSuspicious(ThresholdAvoidanceRule, event) == Some(false)
  {
    ThresholdAvoidanceBand(event);
  }

  /** High amount: throws on a null currency or amount; for euros and unknown currencies
      the limit is 1,000,000 inclusive; the currency is matched whatever its case. */
  lemma HighAmountIff(event: TransactionWithMt103Event, other: string)
    ensures IsSuspicious(HighAmountRule, event).None? <==>
      event.transaction.currency.None? || event.transaction.amount.None?
    ensures (event.transaction.currency.Some? && event.transaction.amount.Some?
             && ToUpper(event.transaction.currency.value) !in {"USD", "GBP", "CHF"}) ==>
      IsSuspicious(HighAmountRule, event).value == AtLeast(event.transaction.amount.value, BigDecimal(1000000, 0))
    ensures event.transaction.currency.Some? && ToUpper(other) == ToUpper(event.transaction.currency.value) ==>
      IsSuspicious(HighAmountRule, event.(transaction := event.transaction.(currency := Some(other))))
      == IsSuspicious(HighAmountRule, event)
  {
  }

  /** The conversion decides: 1,000,000 is caught in euros but not in dollars (850,000.00),
      while 900,000 pounds (1,035,000.00) are caught. */
  lemma HighAmountConversions(event: TransactionWithMt103Event)
    ensures event.transaction.amount == Some(BigDecimal(1000000, 0)) && event.transaction.currency == Some("EUR")
      ==> IsSuspicious(HighAmountRule, event) == Some(true)
    ensures event.transaction.amount == Some(BigDecimal(1000000, 0)) && event.transaction.currency == Some("USD")
      ==> IsSuspicious(HighAmountRule, event) == Some(false)
    ensures event.transaction.amount == Some(BigDecimal(900000, 0)) && event.transaction.currency == Some("GBP")
      ==> IsSuspicious(HighAmountRule, event) == Some(true)
  {
    assert ToUpper("EUR") == "EUR" && ToUpper("USD") == "USD" && ToUpper("GBP") == "GBP";
  }

  /** For a fixed currency the high-amount rule is monotone: an amount at least as large as
      one it flags is flagged too. */
  lemma HighAmountMonotone(event: TransactionWithMt103Event, larger: BigDecimal)
    requires IsSuspicious(HighAmountRule, event) == Some(true)
    requires AtLeast(larger, event.transaction.amount.value)
    ensures IsSuspicious(HighAmountRule, event.(transaction := event.transaction.(amount := Some(larger)))) == Some(true)
  {
    var t := event.transaction;
    var a, c := t.amount.value, t.currency.value;
    CompareToAntisymmetric(larger, a);
    var rate := if ToUpper(c) == "USD" then BigDecimal(85, 2)
      else if ToUpper(c) == "GBP" then BigDecimal(115, 2) else BigDecimal(92, 2);
    MultiplyMonotone(a, larger, rate);
    CompareToAntisymmetric(ConvertToEur(larger, c), ConvertToEur(a, c));
    CompareToAntisymmetric(ConvertToEur(a, c), HighAmountLimit);
    CompareToTransitive(HighAmountLimit, ConvertToEur(a, c), ConvertToEur(larger, c));
    CompareToAntisymmetric(ConvertToEur(larger, c), HighAmountLimit);
  }

  /** Off hours: throws on a null timestamp; for a representable time, suspicious exactly
      when the hour is 23 or below 6, whatever the date. */
  lemma OffHoursIff(event: TransactionWithMt103Event)
    ensures IsSuspicious(OffHoursRule, event).None? <==> event.transaction.timestamp.None?
    ensures event.transaction.timestamp.Some? && Valid(event.transaction.timestamp.value) ==>
      IsSuspicious(OffHoursRule, event).value == (event.transaction.timestamp.value.hour >= 23 || event.transaction.timestamp.value.hour < 6)
  {
    if event.transaction.timestamp.Some? && Valid(event.transaction.timestamp.value) {
      var ts := event.transaction.timestamp.value;
      var secs := (ts.hour * 60 + ts.minute) * 60 + ts.second;
      assert ts.hour * 3600 <= secs < ts.hour * 3600 + 3600;
      assert NanoOfDay(ts) == secs * 1000000000 + ts.nano;
    }
  }

  /** Suspicious remittance: throws on a null amount; otherwise suspicious exactly when the
      amount equals one of the four patterns at scale 0, so 999.00 is not caught although it
      compares equal to 999, and neither is 1500. */
  lemma SuspiciousRemittanceByEquals(event: TransactionWithMt103Event)
    ensures IsSuspicious(SuspiciousRemittanceRule, event).None? <==> event.transaction.amount.None?
    ensures event.transaction.amount.Some? ==>
      (IsSuspicious(SuspiciousRemittanceRule, event).value <==>
       event.transaction.amount.value.scale == 0 && event.transaction.amount.value.unscaled in {999, 9999, 99999, 999999})
    ensures event.transaction.amount == Some(BigDecimal(99900, 2)) ==>
      IsSuspicious(SuspiciousRemittanceRule, event) == Some(false) && CompareTo(BigDecimal(99900, 2), BigDecimal(999, 0)) == 0
  {
  }
}
