/**
 * The alert service's mapper from a transaction and its detection result to the record
 * the report endpoints return: the transaction's fields, the result's verdict, the number
 * of alerts and their fraud-type names. The clock reading is a parameter.
 */
module FraudMapper {
  import opened Wrappers
  import opened BigDec
  import opened Clock
  import opened AlertModel
  import FraudDetection
  import FraudDetectors
  import Config = FraudConfiguration

  datatype TransactionRecordDto = TransactionRecordDto(
    transactionId: Option<string>,
    fromAccount: Option<string>,
    toAccount: Option<string>,
    amount: Option<BigDecimal>,
    currency: Option<string>,
    fromBankName: Option<string>,
    toBankName: Option<string>,
    fromCountryCode: Option<string>,
    toCountryCode: Option<string>,
    timestamp: Option<LocalDateTime>,
    status: Option<string>,
    isFraudulent: bool,
    riskScore: int,
    riskLevel: RiskLevel,
    alertCount: int,
    alertTypes: seq<string>,
    detectionTimestamp: LocalDateTime,
    processedAt: LocalDateTime)

  /** getAlertCount: the number of alerts, 0 when the list is null. */
  function AlertCount(result: FraudDetectionResult): (r: nat)
    ensures result.alerts.None? ==> r == 0
    ensures result.alerts.Some? ==> r == |result.alerts.value|
  {
    |result.alerts.GetOr([])|
  }

  /** getAlertTypes: the alerts' fraud-type names in the alerts' order, empty when the
      list is null. */
  function AlertTypes(result: FraudDetectionResult): (r: seq<string>)
    ensures result.alerts.None? ==> r == []
    ensures result.alerts.Some? ==> |r| == |result.alerts.value|
    ensures result.alerts.Some? ==> forall j :: 0 <= j < |r| ==> r[j] == FraudTypeName(result.alerts.value[j].fraudType)
  {
    match result.alerts
    case None => []
    case Some(alerts) =>
      seq(|alerts|, j requires 0 <= j < |alerts| => FraudTypeName(alerts[j].fraudType))
  }

  /** toTransactionRecord. */
  function ToTransactionRecord(t: Transaction, result: FraudDetectionResult, processedAt: LocalDateTime): TransactionRecordDto {
    TransactionRecordDto(
      t.transactionId, t.fromAccount, t.toAccount, t.amount, t.currency,
      t.fromBankName, t.toBankName, t.fromCountryCode, t.toCountryCode, t.timestamp, t.status,
      result.isFraudulent, result.riskScore, result.riskLevel,
      AlertCount(result), AlertTypes(result), result.detectionTimestamp, processedAt)
  }

  /** The record's list of types is always as long as its count, whatever the result. */
  lemma AlertTypesMatchCount(t: Transaction, result: FraudDetectionResult, processedAt: LocalDateTime)
    ensures var rec := ToTransactionRecord(t, result, processedAt);
      |rec.alertTypes| == rec.alertCount
  {
  }

  /** The record of a detection run repeats the run's verdict: fraudulent exactly when
      the score reaches the configured threshold, the score of the alerts, the level
      fromScore gives the score,
      one type name per alert the enabled detectors raised, and the run's transaction
      identifier and detection time. */
  lemma RecordOfDetection(ds: seq<FraudDetectors.Detector>, t: Transaction, config: Config.FraudConfig,
                          alertIds: seq<string>, now: LocalDateTime, processedAt: LocalDateTime)
    requires |alertIds| == |ds|
    requires FraudDetection.DetectFraud(ds, t, config, alertIds, now).Some?
    ensures var result := FraudDetection.DetectFraud(ds, t, config, alertIds, now).value;
      var rec := ToTransactionRecord(t, result, processedAt);
      var alerts := FraudDetection.Collect(FraudDetection.Outcomes(ds, t, config, alertIds, now)).value;
      (rec.isFraudulent <==> rec.riskScore >= config.fraudThreshold)
      && rec.riskScore == FraudDetection.RiskScore(alerts)
      && rec.riskLevel == ScoreLevel(rec.riskScore)
      && rec.alertCount == |alerts|
      && (forall j :: 0 <= j < |alerts| ==> rec.alertTypes[j] == FraudTypeName(alerts[j].fraudType))
      && rec.detectionTimestamp == now && rec.transactionId == t.transactionId
  {
  }
}
