/**
 * The alert service's detection settings: the score threshold, the high-amount
 * threshold, and one on/off flag per detector, looked up by detector name.
 */
module FraudConfiguration {
  import opened Wrappers
  import opened BigDec

  datatype FraudConfig = FraudConfig(
    fraudThreshold: int,
    highAmountThreshold: Option<BigDecimal>,
    highAmountDetectorEnabled: bool,
    offHoursDetectorEnabled: bool,
    suspiciousRemittanceDetectorEnabled: bool,
    roundAmountDetectorEnabled: bool,
    crossBorderDetectorEnabled: bool,
    structuringDetectorEnabled: bool,
    cryptoDetectorEnabled: bool)

  /** The values used when no property overrides them: threshold 70, high amount
      15000.00, every detector on. */
  const Defaults: FraudConfig :=
    FraudConfig(70, Some(BigDecimal(1500000, 2)), true, true, true, true, true, true, true)

  /** The seven names the switch knows. */
  const KnownDetectorNames: set<string> := {
    "HIGH_AMOUNT_THRESHOLD", "OFF_HOURS_TRANSACTION", "SUSPICIOUS_REMITTANCE", "ROUND_AMOUNT_PATTERN",
    "CROSS_BORDER_HIGH_RISK", "STRUCTURING_PATTERN", "CRYPTOCURRENCY_KEYWORDS" }

  /** isDetectorEnabled: the flag of a known name; any other name is enabled. */
  function IsDetectorEnabled(c: FraudConfig, detectorName: string): bool {
    if detectorName == "HIGH_AMOUNT_THRESHOLD" then c.highAmountDetectorEnabled
    else if detectorName == "OFF_HOURS_TRANSACTION" then c.offHoursDetectorEnabled
    else if detectorName == "SUSPICIOUS_REMITTANCE" then c.suspiciousRemittanceDetectorEnabled
    else if detectorName == "ROUND_AMOUNT_PATTERN" then c.roundAmountDetectorEnabled
    else if detectorName == "CROSS_BORDER_HIGH_RISK" then c.crossBorderDetectorEnabled
    else if detectorName == "STRUCTURING_PATTERN" then c.structuringDetectorEnabled
    else if detectorName == "CRYPTOCURRENCY_KEYWORDS" then c.cryptoDetectorEnabled
    else true
  }

  /** getHighAmountThreshold: Optional.ofNullable of the field, empty only when it is null. */
  function HighAmountThreshold(c: FraudConfig): (r: Option<BigDecimal>)
    ensures r.None? <==> c.highAmountThreshold.None?
    ensures r.Some? ==> r.value == c.highAmountThreshold.value
  {
    c.highAmountThreshold
  }

  /** A detector can only be switched off through one of the seven known names; every
      other name is always on. */
  lemma UnknownNamesEnabled(c: FraudConfig, detectorName: string)
    ensures detectorName !in KnownDetectorNames ==> IsDetectorEnabled(c, detectorName)
    ensures !IsDetectorEnabled(c, detectorName) ==> detectorName in KnownDetectorNames
  {
  }

  /** With the defaults every detector runs, and a transaction is fraudulent from a score
      of 70. */
  lemma DefaultsEnableAll(detectorName: string)
    ensures IsDetectorEnabled(Defaults, detectorName)
    ensures Defaults.fraudThreshold == 70 && HighAmountThreshold(Defaults) == Some(BigDecimal(1500000, 2))
  {
  }

  /** Each of the seven names reads its own flag and no other. */
  lemma KnownNameFlags(c: FraudConfig, detectorName: string)
    ensures detectorName == "HIGH_AMOUNT_THRESHOLD" ==> IsDetectorEnabled(c, detectorName) == c.highAmountDetectorEnabled
    ensures detectorName == "OFF_HOURS_TRANSACTION" ==> IsDetectorEnabled(c, detectorName) == c.offHoursDetectorEnabled
    ensures detectorName == "SUSPICIOUS_REMITTANCE" ==>
      IsDetectorEnabled(c, detectorName) == c.suspiciousRemittanceDetectorEnabled
    ensures detectorName == "ROUND_AMOUNT_PATTERN" ==> IsDetectorEnabled(c, detectorName) == c.roundAmountDetectorEnabled
    ensures detectorName == "CROSS_BORDER_HIGH_RISK" ==> IsDetectorEnabled(c, detectorName) == c.crossBorderDetectorEnabled
    ensures detectorName == "STRUCTURING_PATTERN" ==> IsDetectorEnabled(c, detectorName) == c.structuringDetectorEnabled
    ensures detectorName == "CRYPTOCURRENCY_KEYWORDS" ==> IsDetectorEnabled(c, detectorName) == c.cryptoDetectorEnabled
  {
    if detectorName == "HIGH_AMOUNT_THRESHOLD" {
    } else if detectorName == "OFF_HOURS_TRANSACTION" {
    } else if detectorName == "SUSPICIOUS_REMITTANCE" {
    } else if detectorName == "ROUND_AMOUNT_PATTERN" {
    } else if detectorName == "CROSS_BORDER_HIGH_RISK" {
    } else if detectorName == "STRUCTURING_PATTERN" {
    }
  }
}
