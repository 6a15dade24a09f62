/**
 * The seven pluggable fraud detectors of the alert service. Each looks at one
 * transaction and either raises an alert (with its fraud type, a detail text and a fixed
 * severity), returns null, or throws when it dereferences a null field. The random alert
 * identifier and the clock reading are parameters.
 */
module FraudDetectors {
  import opened Wrappers
  import opened JavaString
  import opened BigDec
  import opened Clock
  import opened AlertModel
  import Config = FraudConfiguration

  datatype Detector =
    | CrossBorderHighRiskDetector | HighAmountThresholdDetector | FrequentSmallAmountsDetector
    | StructuringPatternDetector | OffHoursTransactionDetector | SuspiciousRemittanceDetector
    | CryptocurrencyKeywordsDetector

  /** getDetectorName. */
  function DetectorName(d: Detector): string {
    match d
    case CrossBorderHighRiskDetector => "CROSS_BORDER_HIGH_RISK"
    case HighAmountThresholdDetector => "HIGH_AMOUNT_THRESHOLD"
    case FrequentSmallAmountsDetector => "FREQUENT_SMALL_AMOUNTS"
    case StructuringPatternDetector => "STRUCTURING_PATTERN"
    case OffHoursTransactionDetector => "OFF_HOURS_TRANSACTION"
    case SuspiciousRemittanceDetector => "SUSPICIOUS_REMITTANCE"
    case CryptocurrencyKeywordsDetector => "CRYPTOCURRENCY_KEYWORDS"
  }

  /** isEnabled: the configuration's switch looked up by the detector's name. */
  predicate IsEnabled(d: Detector, config: Config.FraudConfig) {
    Config.IsDetectorEnabled(config, DetectorName(d))
  }

  /** The frequent-small-amounts detector's name is not one the configuration knows, so no
      setting can switch it off; the other six follow their own flag. */
  lemma EnabledFlags(d: Detector, config: Config.FraudConfig)
    ensures d == FrequentSmallAmountsDetector ==> IsEnabled(d, config)
    ensures d == CrossBorderHighRiskDetector ==> IsEnabled(d, config) == config.crossBorderDetectorEnabled
    ensures d == HighAmountThresholdDetector ==> IsEnabled(d, config) == config.highAmountDetectorEnabled
    ensures d == StructuringPatternDetector ==> IsEnabled(d, config) == config.structuringDetectorEnabled
    ensures d == OffHoursTransactionDetector ==> IsEnabled(d, config) == config.offHoursDetectorEnabled
    ensures d == SuspiciousRemittanceDetector ==> IsEnabled(d, config) == config.suspiciousRemittanceDetectorEnabled
    ensures d == CryptocurrencyKeywordsDetector ==> IsEnabled(d, config) == config.cryptoDetectorEnabled
  {
    if d == FrequentSmallAmountsDetector {
      Config.UnknownNamesEnabled(config, DetectorName(d));
    } else {
      Config.KnownNameFlags(config, DetectorName(d));
    }
  }

  /** Under the default settings every detector runs. */
  lemma DefaultsEnable(d: Detector)
    ensures IsEnabled(d, Config.Defaults)
  {
    Config.DefaultsEnableAll(DetectorName(d));
  }

  /** What detect returns: an alert, null, or a NullPointerException. */
  datatype Detection = NoAlert | Raised(alert: FraudAlert) | NullPointer

  /** createAlert: the fraud type's description, the given details and severity, status
      ACTIVE. */
  function CreateAlert(fraudType: FraudType, details: string, severity: int, alertId: string, now: LocalDateTime): FraudAlert {
    FraudAlert(alertId, fraudType, FraudTypeDescription(fraudType), severity, details, now, Active)
  }

  // ---------------------------------------------------------------------------
  // The detail texts of the alerts
  // ---------------------------------------------------------------------------

  function CrossBorderDetails(t: Transaction): string {
    "Transaction involves high-risk country. From: " + Str(t.fromCountryCode) + ", To: " + Str(t.toCountryCode)
  }

  function HighAmountDetails(amount: BigDecimal, threshold: BigDecimal): string {
    "Transaction amount " + ToString(amount) + " exceeds threshold " + ToString(threshold)
  }

  function FrequentSmallDetails(amount: BigDecimal): string {
    "Small transaction amount " + ToString(amount) + " may indicate structuring behavior"
  }

  function StructuringDetails(amount: BigDecimal): string {
    "Transaction amount " + ToString(amount) + " appears to be structured to avoid "
    + "reporting threshold"
  }

  function OffHoursDetails(ts: LocalDateTime): string {
    "Transaction occurred during off-hours at " + TimeToString(ts)
  }

  function SuspiciousDetails(text: string): string {
    "Bank information contains suspicious keywords: " + text
  }

  function CryptoDetails(text: string): string {
    "Transaction contains cryptocurrency-related keywords " + "in bank names: " + text
  }

  // ---------------------------------------------------------------------------
  // CrossBorderHighRiskDetector
  // ---------------------------------------------------------------------------

  const HighRiskCountries: seq<string> := ["AF", "IR", "KP", "MM", "SY", "YE"]

  /** isHighRiskCountry: null-safe list membership. */
  predicate IsHighRiskCountry(code: Option<string>) {
    code.Some? && code.value in HighRiskCountries
  }

  function DetectCrossBorder(t: Transaction, alertId: string, now: LocalDateTime): Detection {
    if IsHighRiskCountry(t.toCountryCode) || IsHighRiskCountry(t.fromCountryCode) then
      Raised(CreateAlert(CrossBorderHighRisk, CrossBorderDetails(t), 8, alertId, now))
    else NoAlert
  }

  // ---------------------------------------------------------------------------
  // Amount detectors
  // ---------------------------------------------------------------------------

  /** 15000.00 */
  const DefaultHighAmountThreshold: BigDecimal := BigDecimal(1500000, 2)

  /** The threshold in force: the configured one, else 15000.00. */
  function EffectiveThreshold(config: Config.FraudConfig): BigDecimal {
    Config.HighAmountThreshold(config).GetOr(DefaultHighAmountThreshold)
  }

  function DetectHighAmount(t: Transaction, config: Config.FraudConfig, alertId: string, now: LocalDateTime): Detection {
    var threshold := EffectiveThreshold(config);
    match t.amount
    case None => NullPointer
    case Some(amount) =>
      if CompareTo(amount, threshold) >= 0 then
        Raised(CreateAlert(HighAmountThreshold, HighAmountDetails(amount, threshold), 7, alertId, now))
      else NoAlert
  }

  /** 1000.00 */
  const SmallAmountThreshold: BigDecimal := BigDecimal(100000, 2)

  function DetectFrequentSmall(t: Transaction, alertId: string, now: LocalDateTime): Detection {
    match t.amount
    case None => NullPointer
    case Some(amount) =>
      if CompareTo(amount, SmallAmountThreshold) < 0 then
        Raised(CreateAlert(FrequentSmallAmounts, FrequentSmallDetails(amount), 4, alertId, now))
      else NoAlert
  }

  /** 10000.00 and 100.00 */
  const StructuringThreshold: BigDecimal := BigDecimal(1000000, 2)
  const StructuringMargin: BigDecimal := BigDecimal(10000, 2)

  function DetectStructuringPattern(t: Transaction, alertId: string, now: LocalDateTime): Detection {
    var lowerBound := Subtract(StructuringThreshold, StructuringMargin);
    match t.amount
    case None => NullPointer
    case Some(amount) =>
      if CompareTo(amount, lowerBound) >= 0 && CompareTo(amount, StructuringThreshold) < 0 then
        Raised(CreateAlert(StructuringPattern, StructuringDetails(amount), 7, alertId, now))
      else NoAlert
  }

  // ---------------------------------------------------------------------------
  // OffHoursTransactionDetector
  // ---------------------------------------------------------------------------

  function DetectOffHours(t: Transaction, alertId: string, now: LocalDateTime): Detection {
    match t.timestamp
    case None => NullPointer
    case Some(ts) =>
      if 2 <= ts.hour <= 5 then
        Raised(CreateAlert(OffHoursTransaction, OffHoursDetails(ts), 5, alertId, now))
      else NoAlert
  }

  // ---------------------------------------------------------------------------
  // Keyword detectors
  // ---------------------------------------------------------------------------

  const SuspiciousKeywords: seq<string> := [
    "yieldfarm", "guaranteed returns", "crypto investment", "urgent cash", "confidential",
    "mining pool", "trading profit", "forex trading", "binary options", "investment opportunity"]

  const CryptoKeywords: seq<string> := [
    "bitcoin", "ethereum", "cryptocurrency", "crypto", "blockchain", "defi", "nft", "staking",
    "mining", "wallet", "exchange"]

  /** extractTextToAnalyze: both bank names joined by a space, else the one present, else
      null. */
  function TextToAnalyze(t: Transaction): (r: Option<string>)
    ensures r.None? <==> t.fromBankName.None? && t.toBankName.None?
  {
    match (t.fromBankName, t.toBankName)
    case (Some(from), Some(to)) => Some(from + " " + to)
    case (Some(from), None) => Some(from)
    case (None, Some(to)) => Some(to)
    case (None, None) => None
  }

  /** containsSuspiciousKeywords / containsCryptoKeywords: a non-blank text whose lower-case
      form contains one of the keywords. */
  predicate MatchesKeyword(text: string, keywords: seq<string>) {
    Trim(text) != [] && exists k :: 0 <= k < |keywords| && Contains(ToLower(text), keywords[k])
  }

  function DetectSuspiciousRemittance(t: Transaction, alertId: string, now: LocalDateTime): Detection {
    var text := TextToAnalyze(t);
    if text.Some? && MatchesKeyword(text.value, SuspiciousKeywords) then
      Raised(CreateAlert(SuspiciousRemittance, SuspiciousDetails(text.value), 6, alertId, now))
    else NoAlert
  }

  function DetectCrypto(t: Transaction, alertId: string, now: LocalDateTime): Detection {
    var text := TextToAnalyze(t);
    if text.Some? && MatchesKeyword(text.value, CryptoKeywords) then
      Raised(CreateAlert(CryptocurrencyKeywords, CryptoDetails(text.value), 6, alertId, now))
    else NoAlert
  }

  /** detect, dispatched on the detector. */
  function Detect(d: Detector, t: Transaction, config: Config.FraudConfig, alertId: string, now: LocalDateTime): Detection {
    match d
    case CrossBorderHighRiskDetector => DetectCrossBorder(t, alertId, now)
    case HighAmountThresholdDetector => DetectHighAmount(t, config, alertId, now)
    case FrequentSmallAmountsDetector => DetectFrequentSmall(t, alertId, now)
    case StructuringPatternDetector => DetectStructuringPattern(t, alertId, now)
    case OffHoursTransactionDetector => DetectOffHours(t, alertId, now)
    case SuspiciousRemittanceDetector => DetectSuspiciousRemittance(t, alertId, now)
    case CryptocurrencyKeywordsDetector => DetectCrypto(t, alertId, now)
  }

  /** The fraud type and severity each detector raises with. */
  function DetectorType(d: Detector): FraudType {
    match d
    case CrossBorderHighRiskDetector => CrossBorderHighRisk
    case HighAmountThresholdDetector => HighAmountThreshold
    case FrequentSmallAmountsDetector => FrequentSmallAmounts
    case StructuringPatternDetector => StructuringPattern
    case OffHoursTransactionDetector => OffHoursTransaction
    case SuspiciousRemittanceDetector => SuspiciousRemittance
    case CryptocurrencyKeywordsDetector => CryptocurrencyKeywords
  }

  function DetectorSeverity(d: Detector): int {
    match d
    case CrossBorderHighRiskDetector => 8
    case HighAmountThresholdDetector => 7
    case FrequentSmallAmountsDetector => 4
    case StructuringPatternDetector => 7
    case OffHoursTransactionDetector => 5
    case SuspiciousRemittanceDetector => 6
    case CryptocurrencyKeywordsDetector => 6
  }

  // ---------------------------------------------------------------------------
  // Properties
  // ---------------------------------------------------------------------------

  /** Every alert a detector raises is built by createAlert with the detector's own fraud
      type and severity, the given identifier and time: so its description is that
      type's, its status ACTIVE, and its severity between 4 and 8. */
  lemma AlertShape(d: Detector, t: Transaction, config: Config.FraudConfig, alertId: string, now: LocalDateTime)
    ensures Detect(d, t, config, alertId, now).Raised? ==>
      Detect(d, t, config, alertId, now).alert ==
        CreateAlert(DetectorType(d), Detect(d, t, config, alertId, now).alert.details, DetectorSeverity(d), alertId, now)
    ensures 4 <= DetectorSeverity(d) <= 8
  {
    match d
    case CrossBorderHighRiskDetector =>
    case HighAmountThresholdDetector =>
    case FrequentSmallAmountsDetector =>
    case StructuringPatternDetector =>
    case OffHoursTransactionDetector =>
    case SuspiciousRemittanceDetector =>
    case CryptocurrencyKeywordsDetector =>
  }

  /** Only the high-amount detector reads the configuration: every other detector gives
      the same answer under any two configurations. */
  lemma DetectIgnoresConfig(d: Detector, t: Transaction, c1: Config.FraudConfig, c2: Config.FraudConfig, alertId: string, now: LocalDateTime)
    requires d != HighAmountThresholdDetector
    ensures Detect(d, t, c1, alertId, now) == Detect(d, t, c2, alertId, now)
  {
  }

  /** Cross-border: an alert exactly when either country code is one of the six listed;
      null codes count as not high-risk, the check never throws, and it is symmetric in
      source and destination. */
  lemma CrossBorderRaisedIff(t: Transaction, config: Config.FraudConfig, alertId: string, now: LocalDateTime)
    ensures !Detect(CrossBorderHighRiskDetector, t, config, alertId, now).NullPointer?
    ensures Detect(CrossBorderHighRiskDetector, t, config, alertId, now).Raised? <==>
      (t.fromCountryCode.Some? && t.fromCountryCode.value in {"AF", "IR", "KP", "MM", "SY", "YE"})
      || (t.toCountryCode.Some? && t.toCountryCode.value in {"AF", "IR", "KP", "MM", "SY", "YE"})
    ensures Detect(CrossBorderHighRiskDetector, t, config, alertId, now).Raised?
      == Detect(CrossBorderHighRiskDetector, t.(fromCountryCode := t.toCountryCode, toCountryCode := t.fromCountryCode),
           config, alertId, now).Raised?
  {
    assert forall c :: c in HighRiskCountries <==> c in {"AF", "IR", "KP", "MM", "SY", "YE"};
  }

  /** High amount: throws on a null amount; otherwise an alert exactly when the amount is
      at least the threshold in force, the bound included; that threshold is the
      configured one, and 15000.00 when none is configured. */
  lemma HighAmountRaisedIff(t: Transaction, config: Config.FraudConfig, alertId: string, now: LocalDateTime)
    ensures Detect(HighAmountThresholdDetector, t, config, alertId, now).NullPointer? <==> t.amount.None?
    ensures t.amount.Some? ==>
      (Detect(HighAmountThresholdDetector, t, config, alertId, now).Raised? <==> AtLeast(t.amount.value, EffectiveThreshold(config)))
    ensures EffectiveThreshold(config) ==
      if config.highAmountThreshold.Some? then config.highAmountThreshold.value else BigDecimal(1500000, 2)
  {
  }

  /** With no threshold configured the comparison is by value: 15000 (scale 0) and
      15000.00 (scale 2) decide alike. */
  lemma DefaultThresholdByValue(amount: BigDecimal)
    ensures AtLeast(amount, DefaultHighAmountThreshold) == AtLeast(amount, BigDecimal(15000, 0))
  {
    CompareToIgnoresScale(15000, 0, amount);
    CompareToIgnoresScale(150000, 1, amount);
  }

  /** Frequent small amounts: an alert exactly when the amount is below 1000.00, strictly;
      the answer depends on the amount alone, never on earlier transactions. */
  lemma FrequentSmallRaisedIff(t: Transaction, u: Transaction, config: Config.FraudConfig, alertId: string, now: LocalDateTime)
    requires t.amount.Some?
    ensures Detect(FrequentSmallAmountsDetector, t, config, alertId, now).Raised? <==>
      Less(t.amount.value, BigDecimal(100000, 2))
    ensures u.amount == t.amount ==>
      Detect(FrequentSmallAmountsDetector, u, config, alertId, now)
      == Detect(FrequentSmallAmountsDetector, t, config, alertId, now)
  {
  }

  /** Structuring pattern: the lower bound is 9900.00; an alert exactly when
      9900.00 <= amount < 10000.00, so 9900.00 and 9999.99 are flagged and 10000.00 is not. */
  lemma StructuringPatternBand(t: Transaction, config: Config.FraudConfig, alertId: string, now: LocalDateTime)
    requires t.amount.Some?
    ensures Subtract(StructuringThreshold, StructuringMargin) == BigDecimal(990000, 2)
    ensures Detect(StructuringPatternDetector, t, config, alertId, now).Raised? <==>
      !Less(t.amount.value, BigDecimal(990000, 2)) && Less(t.amount.value, BigDecimal(1000000, 2))
    ensures t.amount.value in {BigDecimal(990000, 2), BigDecimal(999999, 2)} ==>
      Detect(StructuringPatternDetector, t, config, alertId, now).Raised?
    ensures t.amount.value == BigDecimal(1000000, 2) ==>
      !Detect(StructuringPatternDetector, t, config, alertId, now).Raised?
  {
  }

  /** Off hours: throws on a null timestamp; otherwise an alert exactly when the hour is
      2, 3, 4 or 5, whatever the minutes, seconds and date. */
  lemma OffHoursRaisedIff(t: Transaction, u: Transaction, config: Config.FraudConfig, alertId: string, now: LocalDateTime)
    ensures Detect(OffHoursTransactionDetector, t, config, alertId, now).NullPointer? <==> t.timestamp.None?
    ensures t.timestamp.Some? ==>
      (Detect(OffHoursTransactionDetector, t, config, alertId, now).Raised? <==> 2 <= t.timestamp.value.hour <= 5)
    ensures t.timestamp.Some? && u.timestamp.Some? && u.timestamp.value.hour == t.timestamp.value.hour ==>
      Detect(OffHoursTransactionDetector, u, config, alertId, now).Raised?
      == Detect(OffHoursTransactionDetector, t, config, alertId, now).Raised?
  {
  }

  /** A string trims to nothing exactly when every character is at most U+0020. */
  lemma TrimEmptyIffBlank(s: string)
    ensures Trim(s) == [] <==> forall i :: 0 <= i < |s| ==> s[i] <= ' '
  {
    if forall i :: 0 <= i < |s| ==> s[i] <= ' ' {
      TrimStartAllBlank(s);
    } else {
      var i :| 0 <= i < |s| && s[i] > ' ';
      TrimVisible(s, i);
    }
  }

  /** The keyword test ignores case: two texts with the same lower-case form are judged
      alike. */
  lemma KeywordMatchIgnoresCase(a: string, b: string, keywords: seq<string>)
    requires ToLower(a) == ToLower(b)
    ensures MatchesKeyword(a, keywords) == MatchesKeyword(b, keywords)
  {
    TrimEmptyIffBlank(a);
    TrimEmptyIffBlank(b);
    assert |a| == |b|;
    forall i | 0 <= i < |a| ensures a[i] <= ' ' <==> b[i] <= ' ' {
      assert ToLower(a)[i] == LowerChar(a[i]) && ToLower(b)[i] == LowerChar(b[i]);
    }
  }

  /** Suspicious remittance: the text is both bank names joined by a space (or the one
      present); an alert exactly when that text is non-blank and its lower-case form holds
      one of the ten phrases; two null bank names never raise. */
  lemma SuspiciousRemittanceRaisedIff(t: Transaction, config: Config.FraudConfig, alertId: string, now: LocalDateTime)
    ensures Detect(SuspiciousRemittanceDetector, t, config, alertId, now).Raised? <==>
      TextToAnalyze(t).Some? && Trim(TextToAnalyze(t).value) != []
      && exists k :: 0 <= k < |SuspiciousKeywords| && Contains(ToLower(TextToAnalyze(t).value), SuspiciousKeywords[k])
    ensures t.fromBankName.Some? && t.toBankName.Some? ==>
      TextToAnalyze(t) == Some(t.fromBankName.value + " " + t.toBankName.value)
    ensures t.fromBankName.None? && t.toBankName.None? ==>
      Detect(SuspiciousRemittanceDetector, t, config, alertId, now) == NoAlert
  {
  }

  /** An occurrence of "cryptocurrency" is an occurrence of "crypto": that keyword of the
      crypto list can never decide a match on its own. */
  lemma CryptocurrencyImpliesCrypto(s: string)
    ensures Contains(s, "cryptocurrency") ==> Contains(s, "crypto")
  {
    if Contains(s, "cryptocurrency") {
      var i := IndexOf(s, "cryptocurrency");
      assert s[i..i + 6] == s[i..i + 14][..6];
      ContainsAt(s, "crypto", i);
    }
  }

  /** The crypto detector raises exactly when the bank-name text holds one of its
      keywords. */
  lemma CryptoRaisedIff(t: Transaction, config: Config.FraudConfig, alertId: string, now: LocalDateTime)
    ensures Detect(CryptocurrencyKeywordsDetector, t, config, alertId, now).Raised? <==>
      TextToAnalyze(t).Some? && MatchesKeyword(TextToAnalyze(t).value, CryptoKeywords)
  {
  }

  /** A text whose lower-case form holds "cryptocurrency" always matches the crypto list:
      it is non-blank and holds "crypto". */
  lemma CryptocurrencyAlwaysCaught(text: string)
    requires Contains(ToLower(text), "cryptocurrency")
    ensures MatchesKeyword(text, CryptoKeywords)
  {
    var low := ToLower(text);
    var i := IndexOf(low, "cryptocurrency");
    assert low[i..i + 14] == "cryptocurrency";
    assert low[i..i + 6] == low[i..i + 14][..6] == "crypto";
    ContainsAt(low, "crypto", i);
    assert Contains(low, CryptoKeywords[3]);
    assert low[i] == low[i..i + 6][0] == 'c';
    TrimVisible(text, i);
  }
}
