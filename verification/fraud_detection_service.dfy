/**
 * The alert service's detection run: every enabled detector is asked in turn, the alerts
 * they raise are collected in order, their severities summed and scaled to a risk score,
 * the score mapped to a risk level and compared with the configured fraud threshold.
 * The detectors' order (the order the container injects them in), the alert identifiers
 * and the clock reading are parameters.
 */
module FraudDetection {
  import opened Wrappers
  import opened BigDec
  import opened Clock
  import opened AlertModel
  import opened FraudDetectors
  import Config = FraudConfiguration

  /** What the stream's filter(isEnabled).map(detect) yields for each detector: a
      disabled detector is skipped (shown as no alert), an enabled one is asked. The i-th
      detector's alert gets the identifier `alertIds[i]`. */
  function Outcomes(ds: seq<Detector>, t: Transaction, config: Config.FraudConfig, alertIds: seq<string>,
                    now: LocalDateTime): (r: seq<Detection>)
    requires |alertIds| == |ds|
    ensures |r| == |ds|
    ensures forall i :: 0 <= i < |ds| ==>
      r[i] == if IsEnabled(ds[i], config) then Detect(ds[i], t, config, alertIds[i], now) else NoAlert
  {
    seq(|ds|, i requires 0 <= i < |ds| =>
      if IsEnabled(ds[i], config) then Detect(ds[i], t, config, alertIds[i], now) else NoAlert)
  }

  /** The rest of the stream: filter(non-null).collect, in order, failing as a whole when a
      detector threw. */
  function Collect(os: seq<Detection>): (r: Option<seq<FraudAlert>>)
    ensures r.None? <==> exists i :: 0 <= i < |os| && os[i].NullPointer?
    ensures r.Some? ==> |r.value| <= |os|
    ensures r.Some? ==> forall j :: 0 <= j < |r.value| ==> exists i :: 0 <= i < |os| && os[i] == Raised(r.value[j])
    ensures r.Some? ==> forall i :: 0 <= i < |os| && os[i].Raised? ==> os[i].alert in r.value
  {
    if os == [] then Some([])
    else
      var rest := Collect(os[1..]);
      assert forall i :: 1 <= i < |os| ==> os[i] == os[1..][i - 1];
      match os[0]
      case NullPointer => None
      case NoAlert => rest
      case Raised(a) => if rest.None? then None else Some([a] + rest.value)
  }

  /** What one more outcome in front does to the alerts collected from the rest. */
  function InFront(o: Detection, c: Option<seq<FraudAlert>>): Option<seq<FraudAlert>> {
    match o
    case NullPointer => None
    case NoAlert => c
    case Raised(x) => if c.None? then None else Some([x] + c.value)
  }

  /** Collecting two runs of outcomes one after the other gives the first run's alerts
      followed by the second's: the filter keeps the detectors' order. */
  lemma {:induction false} CollectAppend(a: seq<Detection>, b: seq<Detection>)
    ensures Collect(a + b) == Joined(Collect(a), Collect(b))
  {
    if a == [] {
      assert a + b == b;
      assert Collect(a) == Some([]);
      if Collect(b).Some? {
        assert [] + Collect(b).value == Collect(b).value;
      }
    } else {
      var o, tail := a[0], a[1..];
      assert a == [o] + tail;
      assert a + b == [o] + (tail + b);
      CollectAppend(tail, b);
      CollectCons(o, tail);
      CollectCons(o, tail + b);
      InFrontJoined(o, Collect(tail), Collect(b));
    }
  }

  lemma CollectCons(o: Detection, os: seq<Detection>)
    ensures Collect([o] + os) == InFront(o, Collect(os))
  {
    var s := [o] + os;
    assert s[0] == o && s[1..] == os;
  }

  lemma InFrontJoined(o: Detection, x: Option<seq<FraudAlert>>, y: Option<seq<FraudAlert>>)
    ensures InFront(o, Joined(x, y)) == Joined(InFront(o, x), y)
  {
    if o.Raised? && x.Some? && y.Some? {
      assert [o.alert] + (x.value + y.value) == [o.alert] + x.value + y.value;
    }
  }

  /** One more outcome: a throw fails the run, no alert leaves it as it was, and a raised
      alert goes after all the earlier ones. */
  lemma CollectSnoc(os: seq<Detection>, o: Detection)
    ensures Collect(os + [o]) ==
      match o
      case NullPointer => None
      case NoAlert => Collect(os)
      case Raised(x) => if Collect(os).None? then None else Some(Collect(os).value + [x])
  {
    var none: seq<Detection> := [];
    CollectAppend(os, [o]);
    CollectCons(o, none);
    assert [o] + none == [o];
    assert Collect(none) == Some([]);
    JoinedSingle(Collect(os), o);
  }

  lemma JoinedSingle(c: Option<seq<FraudAlert>>, o: Detection)
    ensures Joined(c, InFront(o, Some([]))) ==
      match o
      case NullPointer => None
      case NoAlert => c
      case Raised(x) => if c.None? then None else Some(c.value + [x])
  {
    match o
    case NullPointer =>
    case NoAlert =>
      if c.Some? {
        assert c.value + [] == c.value;
      }
    case Raised(x) =>
      assert [x] + [] == [x];
  }

  /** The sum of the alerts' severities. */
  function SeveritySum(alerts: seq<FraudAlert>): int {
    if alerts == [] then 0 else alerts[0].severity + SeveritySum(alerts[1..])
  }

  /** calculateRiskScore: ten points per unit of severity. */
  function RiskScore(alerts: seq<FraudAlert>): (r: int)
    ensures alerts == [] ==> r == 0
    ensures r % 10 == 0
  {
    SeveritySum(alerts) * 10
  }

  /** Each alert adds ten points per unit of its severity: the score of two lists of alerts
      is the sum of their scores, and one more alert adds ten times its severity. */
  lemma {:induction false} RiskScoreAppend(a: seq<FraudAlert>, b: seq<FraudAlert>)
    ensures RiskScore(a + b) == RiskScore(a) + RiskScore(b)
    ensures RiskScore(a + b) == RiskScore(a) + 10 * b[0].severity <== |b| == 1
  {
    if a == [] {
      assert a + b == b;
    } else {
      assert (a + b)[1..] == a[1..] + b;
      RiskScoreAppend(a[1..], b);
    }
    if |b| == 1 {
      assert b[1..] == [];
    }
  }

  /** detectFraud: None when a detector throws; otherwise the result carrying the
      transaction's identifier, the alerts, their score, the level fromScore gives it, and
      the fraudulent flag, set exactly when the score reaches the configured threshold. */
  function DetectFraud(ds: seq<Detector>, t: Transaction, config: Config.FraudConfig, alertIds: seq<string>,
                       now: LocalDateTime): (r: Option<FraudDetectionResult>)
    requires |alertIds| == |ds|
    ensures r.None? <==> Collect(Outcomes(ds, t, config, alertIds, now)).None?
    ensures r.Some? ==>
      r.value.alerts == Collect(Outcomes(ds, t, config, alertIds, now))
      && r.value.transactionId == t.transactionId && r.value.detectionTimestamp == now
      && (r.value.isFraudulent <==> r.value.riskScore >= config.fraudThreshold)
      && r.value.riskScore == RiskScore(r.value.alerts.value)
      && r.value.riskLevel == ScoreLevel(r.value.riskScore)
  {
    match Collect(Outcomes(ds, t, config, alertIds, now))
    case None => None
    case Some(alerts) =>
      var score := RiskScore(alerts);
      Some(FraudDetectionResult(t.transactionId, score >= config.fraudThreshold, score, ScoreLevel(score), Some(alerts), now))
  }

  /** Alerts whose severities all lie in lo..hi sum to between lo and hi per alert. */
  lemma {:induction false} SeveritySumBounds(alerts: seq<FraudAlert>, lo: int, hi: int)
    requires forall j :: 0 <= j < |alerts| ==> lo <= alerts[j].severity <= hi
    ensures lo * |alerts| <= SeveritySum(alerts) <= hi * |alerts|
  {
    if alerts != [] {
      SeveritySumBounds(alerts[1..], lo, hi);
    }
  }

  /** The alerts of a run are exactly those of the enabled detectors that raise one, and
      the run fails exactly when an enabled detector throws; disabled detectors are never
      consulted. */
  lemma AlertsOfEnabledDetectors(ds: seq<Detector>, t: Transaction, config: Config.FraudConfig, alertIds: seq<string>,
                                 now: LocalDateTime)
    requires |alertIds| == |ds|
    ensures var r := Collect(Outcomes(ds, t, config, alertIds, now));
      (r.None? <==> exists i :: 0 <= i < |ds| && IsEnabled(ds[i], config) && Detect(ds[i], t, config, alertIds[i], now).NullPointer?)
      && (r.Some? ==> forall j :: 0 <= j < |r.value| ==>
           exists i :: 0 <= i < |ds| && IsEnabled(ds[i], config) && Detect(ds[i], t, config, alertIds[i], now) == Raised(r.value[j]))
      && (r.Some? ==> forall i :: 0 <= i < |ds| ==>
           (IsEnabled(ds[i], config) && Detect(ds[i], t, config, alertIds[i], now).Raised?
            ==> Detect(ds[i], t, config, alertIds[i], now).alert in r.value))
  {
    var os := Outcomes(ds, t, config, alertIds, now);
    var r := Collect(os);
    if r.Some? {
      forall j | 0 <= j < |r.value|
        ensures exists i :: 0 <= i < |ds| && IsEnabled(ds[i], config) && Detect(ds[i], t, config, alertIds[i], now) == Raised(r.value[j])
      {
        var i :| 0 <= i < |os| && os[i] == Raised(r.value[j]);
        assert IsEnabled(ds[i], config);
      }
    }
  }

  /** Since every detector raises with a severity from 4 to 8, a run with n alerts scores
      between 40n and 80n: the score is not confined to 0..100, and two alerts can already
      reach the range fromScore maps back to LOW. */
  lemma ScoreBounds(ds: seq<Detector>, t: Transaction, config: Config.FraudConfig, alertIds: seq<string>, now: LocalDateTime)
    requires |alertIds| == |ds|
    ensures var r := DetectFraud(ds, t, config, alertIds, now);
      r.Some? ==> 40 * |r.value.alerts.value| <= r.value.riskScore <= 80 * |r.value.alerts.value|
  {
    var os := Outcomes(ds, t, config, alertIds, now);
    var r := Collect(os);
    if r.Some? {
      forall j | 0 <= j < |r.value| ensures 4 <= r.value[j].severity <= 8 {
        var i :| 0 <= i < |os| && os[i] == Raised(r.value[j]);
        AlertShape(ds[i], t, config, alertIds[i], now);
      }
      SeveritySumBounds(r.value, 4, 8);
    }
  }

  /** Outcomes that are all "no alert" collect to the empty list. */
  lemma {:induction false} CollectNoAlerts(os: seq<Detection>)
    requires forall i :: 0 <= i < |os| ==> os[i] == NoAlert
    ensures Collect(os) == Some([])
  {
    if os != [] {
      CollectNoAlerts(os[1..]);
    }
  }

  /** A run without alerts scores 0, is LOW, and is fraudulent only under a threshold of
      zero or less; when no detector is enabled that is always the outcome. */
  lemma NoAlertsIsClean(ds: seq<Detector>, t: Transaction, config: Config.FraudConfig, alertIds: seq<string>, now: LocalDateTime)
    requires |alertIds| == |ds|
    ensures (forall i :: 0 <= i < |ds| ==> !IsEnabled(ds[i], config)) ==> Collect(Outcomes(ds, t, config, alertIds, now)) == Some([])
    ensures Collect(Outcomes(ds, t, config, alertIds, now)) == Some([]) ==>
      var r := DetectFraud(ds, t, config, alertIds, now).value;
      r.riskScore == 0 && r.riskLevel == Low && (r.isFraudulent <==> config.fraudThreshold <= 0)
  {
    if forall i :: 0 <= i < |ds| ==> !IsEnabled(ds[i], config) {
      CollectNoAlerts(Outcomes(ds, t, config, alertIds, now));
    }
    ScoreLevelBands(0);
  }

  /** Every detector in the order they are declared. */
  const AllDetectors: seq<Detector> := [
    CrossBorderHighRiskDetector, HighAmountThresholdDetector, FrequentSmallAmountsDetector,
    StructuringPatternDetector, OffHoursTransactionDetector, SuspiciousRemittanceDetector,
    CryptocurrencyKeywordsDetector]

  /** A transfer of 588.4 from Algeria to Syria at 22:10 with no bank names. */
  const SampleTransaction: Transaction :=
    EmptyTransaction.(amount := Some(BigDecimal(5884, 1)), fromCountryCode := Some("DZ"),
      toCountryCode := Some("SY"), timestamp := Some(LocalDateTime(2025, 6, 18, 22, 10, 44, 0)))

  /** Of the seven detectors only cross-border (severity 8) and small-amount (severity 4)
      raise on the sample transfer. */
  lemma SampleRaises(alertId: string, now: LocalDateTime)
    ensures Detect(CrossBorderHighRiskDetector, SampleTransaction, Config.Defaults, alertId, now).Raised?
    ensures Detect(CrossBorderHighRiskDetector, SampleTransaction, Config.Defaults, alertId, now).alert.severity == 8
    ensures Detect(FrequentSmallAmountsDetector, SampleTransaction, Config.Defaults, alertId, now).Raised?
    ensures Detect(FrequentSmallAmountsDetector, SampleTransaction, Config.Defaults, alertId, now).alert.severity == 4
  {
    assert HighRiskCountries[4] == "SY";
  }

  lemma SampleQuiet(d: Detector, alertId: string, now: LocalDateTime)
    requires d != CrossBorderHighRiskDetector && d != FrequentSmallAmountsDetector
    ensures Detect(d, SampleTransaction, Config.Defaults, alertId, now) == NoAlert
  {
    match d
    case HighAmountThresholdDetector =>
    case StructuringPatternDetector =>
    case OffHoursTransactionDetector =>
    case SuspiciousRemittanceDetector =>
    case CryptocurrencyKeywordsDetector =>
  }

  /** Alerts of severity 8 and 4 score 120: at the default threshold of 70 that is
      fraudulent, and yet fromScore calls it LOW. */
  lemma FraudulentYetLow(cross: FraudAlert, small: FraudAlert)
    requires cross.severity == 8 && small.severity == 4
    ensures RiskScore([cross, small]) == 120
    ensures RiskScore([cross, small]) >= Config.Defaults.fraudThreshold && ScoreLevel(RiskScore([cross, small])) == Low
  {
    assert [cross, small][1..] == [small] && [small][1..] == [];
    assert SeveritySum([small]) == 4 + SeveritySum([]);
    assert SeveritySum([cross, small]) == 8 + SeveritySum([small]);
    ScoreLevelBands(120);
  }
}
