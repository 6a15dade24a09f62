/**
 * The alert service's records: the transaction it receives (every field a nullable
 * reference), the event that carries it with its MT103 text, the detector alerts with
 * their fraud types, and the detection result with its risk level.
 */
module AlertModel {
  import opened Wrappers
  import opened BigDec
  import opened Clock

  /** The alert service's transaction: a bean whose fields all start out null. */
  datatype Transaction = Transaction(
    transactionId: Option<string>,
    fromAccount: Option<string>,
    toAccount: Option<string>,
    amount: Option<BigDecimal>,
    currency: Option<string>,
    fromBankSwift: Option<string>,
    toBankSwift: Option<string>,
    fromBankName: Option<string>,
    toBankName: Option<string>,
    timestamp: Option<LocalDateTime>,
    status: Option<string>,
    fromIBAN: Option<string>,
    toIBAN: Option<string>,
    fromCountryCode: Option<string>,
    toCountryCode: Option<string>)

  /** `new Transaction()`: every field null. */
  const EmptyTransaction: Transaction :=
    Transaction(None, None, None, None, None, None, None, None, None, None, None, None, None, None, None)

  datatype TransactionWithMt103Event = TransactionWithMt103Event(transaction: Transaction, mt103Content: Option<string>)

  /** String.valueOf / `%s` of a nullable string: null prints as "null". */
  function Str(s: Option<string>): (r: string)
    ensures s.Some? ==> r == s.value
  {
    match s
    case Some(v) => v
    case None => "null"
  }

  // ---------------------------------------------------------------------------
  // FraudAlert and its FraudType
  // ---------------------------------------------------------------------------

  datatype FraudType =
    | HighAmountThreshold | OffHoursTransaction | SuspiciousRemittance | RoundAmountPattern
    | FrequentSmallAmounts | CrossBorderHighRisk | StructuringPattern | CryptocurrencyKeywords

  /** Enum.name(). */
  function FraudTypeName(t: FraudType): string {
    match t
    case HighAmountThreshold => "HIGH_AMOUNT_THRESHOLD"
    case OffHoursTransaction => "OFF_HOURS_TRANSACTION"
    case SuspiciousRemittance => "SUSPICIOUS_REMITTANCE"
    case RoundAmountPattern => "ROUND_AMOUNT_PATTERN"
    case FrequentSmallAmounts => "FREQUENT_SMALL_AMOUNTS"
    case CrossBorderHighRisk => "CROSS_BORDER_HIGH_RISK"
    case StructuringPattern => "STRUCTURING_PATTERN"
    case CryptocurrencyKeywords => "CRYPTOCURRENCY_KEYWORDS"
  }

  /** The description each fraud type is constructed with. */
  function FraudTypeDescription(t: FraudType): string {
    match t
    case HighAmountThreshold => "High Amount Transaction"
    case OffHoursTransaction => "Off-Hours Transaction"
    case SuspiciousRemittance => "Suspicious Remittance Information"
    case RoundAmountPattern => "Round Amount Pattern"
    case FrequentSmallAmounts => "Frequent Small Amounts"
    case CrossBorderHighRisk => "Cross-Border High Risk"
    case StructuringPattern => "Structuring Pattern"
    case CryptocurrencyKeywords => "Cryptocurrency Keywords"
  }

  datatype AlertStatus = Active | Resolved | FalsePositive | UnderInvestigation

  /** An alert raised by a detector; severity runs from 1 to 10. */
  datatype FraudAlert = FraudAlert(
    alertId: string,
    fraudType: FraudType,
    description: string,
    severity: int,
    details: string,
    timestamp: LocalDateTime,
    status: AlertStatus)

  // ---------------------------------------------------------------------------
  // RiskLevel
  // ---------------------------------------------------------------------------

  datatype RiskLevel = Low | Medium | High | Critical

  /** The enum constants in declaration order (values()). */
  const RiskLevels: seq<RiskLevel> := [Low, Medium, High, Critical]

  function RiskLevelName(l: RiskLevel): string {
    match l
    case Low => "LOW"
    case Medium => "MEDIUM"
    case High => "HIGH"
    case Critical => "CRITICAL"
  }

  function MinScore(l: RiskLevel): int {
    match l
    case Low => 0
    case Medium => 31
    case High => 71
    case Critical => 91
  }

  function MaxScore(l: RiskLevel): int {
    match l
    case Low => 30
    case Medium => 70
    case High => 90
    case Critical => 100
  }

  predicate InBand(l: RiskLevel, score: int) { MinScore(l) <= score <= MaxScore(l) }

  /** The first level in `levels` whose band holds the score. */
  function FirstLevelIn(levels: seq<RiskLevel>, score: int): (r: Option<RiskLevel>)
    ensures r.Some? ==> r.value in levels && InBand(r.value, score)
    ensures r.None? <==> forall k :: 0 <= k < |levels| ==> !InBand(levels[k], score)
  {
    if levels == [] then None
    else if InBand(levels[0], score) then Some(levels[0])
    else FirstLevelIn(levels[1..], score)
  }

  /** What fromScore returns: the first band holding the score, LOW when none does. */
  function ScoreLevel(score: int): RiskLevel {
    FirstLevelIn(RiskLevels, score).GetOr(Low)
  }

  /** RiskLevel.fromScore: the loop over values() returning the first band that holds the
      score, and LOW after the loop. */
  method FromScore(score: int) returns (level: RiskLevel)
    ensures level == ScoreLevel(score)
    ensures InBand(level, score) || level == Low
  {
    var levels := RiskLevels;
    var i := 0;
    while i < |levels|
      invariant 0 <= i <= |levels|
      invariant FirstLevelIn(levels, score) == FirstLevelIn(levels[i..], score)
    {
      assert levels[i..][1..] == levels[i + 1..];
      if InBand(levels[i], score) {
        return levels[i];
      }
      i := i + 1;
    }
    return Low;
  }

  /** The four bands are disjoint and together cover 0..100: in that range exactly one
      level holds a score. */
  lemma BandsPartition(score: int, a: RiskLevel, b: RiskLevel)
    ensures InBand(a, score) && InBand(b, score) ==> a == b
    ensures 0 <= score <= 100 <==> exists l :: InBand(l, score)
  {
    if 0 <= score <= 100 {
      var l := if score <= 30 then Low else if score <= 70 then Medium else if score <= 90 then High else Critical;
      assert InBand(l, score);
    }
  }

  /** fromScore follows the bands 0-30, 31-70, 71-90 and 91-100, and maps every score
      outside 0..100 to LOW. */
  lemma ScoreLevelBands(score: int)
    ensures ScoreLevel(score) ==
      if 31 <= score <= 70 then Medium
      else if 71 <= score <= 90 then High
      else if 91 <= score <= 100 then Critical
      else Low
  {
    var l := ScoreLevel(score);
    var r := FirstLevelIn(RiskLevels, score);
    if r.None? {
      assert !InBand(RiskLevels[1], score) && !InBand(RiskLevels[2], score) && !InBand(RiskLevels[3], score);
    } else {
      BandsPartition(score, l, if 31 <= score <= 70 then Medium else if 71 <= score <= 90 then High
        else if 91 <= score <= 100 then Critical else Low);
    }
  }

  /** fromScore is not monotone: 100 is CRITICAL, 101 and 120 are LOW again. */
  lemma ScoreLevelNotMonotone()
    ensures ScoreLevel(100) == Critical && ScoreLevel(101) == Low && ScoreLevel(120) == Low
  {
    ScoreLevelBands(100);
    ScoreLevelBands(101);
    ScoreLevelBands(120);
  }

  // ---------------------------------------------------------------------------
  // FraudDetectionResult
  // ---------------------------------------------------------------------------

  /** The result of a detection run; alerts may be null in a result built elsewhere. */
  datatype FraudDetectionResult = FraudDetectionResult(
    transactionId: Option<string>,
    isFraudulent: bool,
    riskScore: int,
    riskLevel: RiskLevel,
    alerts: Option<seq<FraudAlert>>,
    detectionTimestamp: LocalDateTime)
}
