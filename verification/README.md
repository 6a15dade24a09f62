# MT103 payment services, modelled in Dafny

This project models the core of three Spring services that exchange SWIFT MT103
customer credit transfers over Kafka:

- **the transaction generator** builds random transfers from a CSV directory of banks
  (BICs, IBAN prefixes and lengths), computes IBANs with ISO 7064 MOD 97-10 check digits,
  renders each transfer as an MT103 message (header blocks 1 to 3, text block 4, trailer
  block 5), and in fraud mode picks a weighted fraud scenario, keeps a bounded history and
  writes a remittance text that hints at the scenario;
- **the validation service** checks the MT103 text: the strict and lenient field
  validators and the structure validator collect every error, the two filter services stop
  at the first failure and forward or store the transaction accordingly;
- **the alert service** runs fraud detectors over each transaction (cross-border,
  high amount, frequent small amounts, structuring pattern, off hours, suspicious
  remittance, cryptocurrency keywords), sums their severities into a risk score and level,
  runs a second rule engine with its own structuring history, stores the transactions it
  judged, and writes each one into a `.swift` file that a reader parses back.

Pure computations are functions with lemmas about them; loops are methods proved
against those functions; the objects that change state (the bank directory, the fraud
generator's history, the structuring history, the transaction store, the filter
services, the string builders) are classes whose methods state their new state.
Randomness, the clock, identifiers the database assigns, `String.hashCode` and the
outcome of sends and saves are parameters.

The files are `wrappers.dfy`, `java_string.dfy`, `big_decimal.dfy` and `clock.dfy`
(Java's strings, `BigDecimal` and `LocalDateTime` as far as the services use them),
then one file per component of the three services.

## Model

| member | source | states |
|---|---|---|
| AlertModel.FromScore | trx-alert-service/src/main/java/com/toufik/trxalertservice/model/FraudDetectionResult.java:34-41 | the level returned is the one ScoreLevel defines, and its band holds the score unless the answer is the LOW fallback |
| AlertModel.FirstLevelIn | trx-alert-service/src/main/java/com/toufik/trxalertservice/model/FraudDetectionResult.java:34-39 | a level found is in the list and its band holds the score; none is found exactly when no band of the list holds it |
| AlertModel.BandsPartition | trx-alert-service/src/main/java/com/toufik/trxalertservice/model/FraudDetectionResult.java:21-24 | two levels whose bands both hold a score are the same level, and some band holds the score exactly when it is in 0..100 |
| AlertModel.ScoreLevelBands | trx-alert-service/src/main/java/com/toufik/trxalertservice/model/FraudDetectionResult.java:21-41 | 0-30 is LOW, 31-70 MEDIUM, 71-90 HIGH, 91-100 CRITICAL, and every score outside 0..100 is LOW |
| AlertModel.ScoreLevelNotMonotone | trx-alert-service/src/main/java/com/toufik/trxalertservice/model/FraudDetectionResult.java:24-40 | fromScore is not monotone: 100 is CRITICAL while 101 and 120 are LOW |
| FraudConfiguration.HighAmountThreshold | trx-alert-service/src/main/java/com/toufik/trxalertservice/config/FraudConfigurationService.java:45-47 | the threshold as an Optional, empty exactly when it is unset; what the detector does with it, comparing against the configured value or 15000.00 when empty, is proved in FraudDetectors.HighAmountRaisedIff |
| FraudConfiguration.UnknownNamesEnabled | trx-alert-service/src/main/java/com/toufik/trxalertservice/config/FraudConfigurationService.java:49-60 | a name outside the seven known detector names is always enabled; a disabled name is one of the seven |
| FraudConfiguration.KnownNameFlags | trx-alert-service/src/main/java/com/toufik/trxalertservice/config/FraudConfigurationService.java:50-57 | each of the seven known names reads its own flag and no other |
| FraudConfiguration.DefaultsEnableAll | trx-alert-service/src/main/java/com/toufik/trxalertservice/config/FraudConfigurationService.java:14-39 | with the default properties every detector is enabled, the fraud threshold is 70 and the high-amount threshold 15000.00 |
| FraudDetectors.EnabledFlags | trx-alert-service/src/main/java/com/toufik/trxalertservice/service/AbstractFraudDetector.java:18-20 | isEnabled asks the configuration under the detector's own name: the frequent-small detector, whose name is unknown to the configuration, is always on; each of the other six detectors, the suspicious-remittance and crypto ones included, follows its own flag |
| FraudDetectors.DefaultsEnable | trx-alert-service/src/main/java/com/toufik/trxalertservice/service/AbstractFraudDetector.java:18-20 | under the default configuration every detector is enabled |
| FraudDetectors.AlertShape | trx-alert-service/src/main/java/com/toufik/trxalertservice/service/AbstractFraudDetector.java:22-32 | every raised alert is the createAlert of the detector's own fraud type and severity, with the given identifier and time; every severity lies between 4 and 8 |
| FraudDetectors.CrossBorderRaisedIff | trx-alert-service/src/main/java/com/toufik/trxalertservice/service/CrossBorderHighRiskDetector.java:22-43 | under any configuration, an alert exactly when either country code is one of AF, IR, KP, MM, SY, YE; null codes count as not high-risk, the detector never throws, and swapping source and destination does not change the answer |
| FraudDetectors.HighAmountRaisedIff | trx-alert-service/src/main/java/com/toufik/trxalertservice/service/HighAmountThresholdDetector.java:18-34 | throws exactly on a null amount; otherwise an alert exactly when the amount is at least the threshold in force, which is the configured one or 15000.00 |
| FraudDetectors.DetectIgnoresConfig | trx-alert-service/src/main/java/com/toufik/trxalertservice/service/HighAmountThresholdDetector.java:18-34 | only the high-amount detector reads the configuration: every other detector answers alike under any two configurations |
| FraudDetectors.DefaultThresholdByValue | trx-alert-service/src/main/java/com/toufik/trxalertservice/service/HighAmountThresholdDetector.java:15-21 | the default threshold compares by value: 15000.00 and 15000 decide every amount alike |
| FraudDetectors.FrequentSmallRaisedIff | trx-alert-service/src/main/java/com/toufik/trxalertservice/service/FrequentSmallAmountsDetector.java:18-33 | under any configuration, an alert exactly when the amount is strictly below 1000.00; two transactions with the same amount get the same answer, so no history is consulted |
| FraudDetectors.StructuringPatternBand | trx-alert-service/src/main/java/com/toufik/trxalertservice/service/StructuringPatternDetector.java:15-37 | under any configuration, the lower bound is 9900.00; an alert exactly when 9900.00 <= amount < 10000.00, so 9900.00 and 9999.99 are flagged and 10000.00 is not |
| FraudDetectors.OffHoursRaisedIff | trx-alert-service/src/main/java/com/toufik/trxalertservice/service/OffHoursTransactionDetector.java:15-32 | under any configuration, throws exactly on a null timestamp; otherwise an alert exactly when the hour is 2 to 5, and two times with the same hour get the same answer whatever their minutes and dates |
| FraudDetectors.TextToAnalyze | trx-alert-service/src/main/java/com/toufik/trxalertservice/service/SuspiciousRemittanceDetector.java:41-55 | the text to analyse is null exactly when both bank names are null |
| FraudDetectors.SuspiciousRemittanceRaisedIff | trx-alert-service/src/main/java/com/toufik/trxalertservice/service/SuspiciousRemittanceDetector.java:24-65 | under any configuration, the text is both bank names joined by a space, or the one present; an alert exactly when it is non-blank and its lower-case form contains one of the ten phrases; two null names never raise |
| FraudDetectors.TrimEmptyIffBlank | trx-alert-service/src/main/java/com/toufik/trxalertservice/service/SuspiciousRemittanceDetector.java:58-60 | a text is blank for the keyword test exactly when all its characters are at most U+0020 |
| FraudDetectors.KeywordMatchIgnoresCase | trx-alert-service/src/main/java/com/toufik/trxalertservice/service/SuspiciousRemittanceDetector.java:57-65 | two texts with the same lower-case form match the same keywords |
| FraudDetectors.CryptoRaisedIff | trx-alert-service/src/main/java/com/toufik/trxalertservice/service/CryptocurrencyKeywordsDetector.java:23-64 | under any configuration, the crypto detector raises exactly when the bank-name text is present and matches one of its eleven keywords |
| FraudDetectors.CryptocurrencyImpliesCrypto | trx-alert-service/src/main/java/com/toufik/trxalertservice/service/CryptocurrencyKeywordsDetector.java:17-20 | every text containing "cryptocurrency" contains "crypto", so that keyword never decides a match alone |
| FraudDetectors.CryptocurrencyAlwaysCaught | trx-alert-service/src/main/java/com/toufik/trxalertservice/service/CryptocurrencyKeywordsDetector.java:56-64 | a text whose lower-case form contains "cryptocurrency" always matches the crypto list |
| FraudDetection.Outcomes | trx-alert-service/src/main/java/com/toufik/trxalertservice/service/FraudDetectionService.java:28-30 | one outcome per detector, in the list's order; what the outcomes mean for the run, that its alerts are exactly those of the enabled detectors that raise one, is proved in FraudDetection.AlertsOfEnabledDetectors |
| FraudDetection.Collect | trx-alert-service/src/main/java/com/toufik/trxalertservice/service/FraudDetectionService.java:31-32 | the collected alerts are exactly the raised ones, the nulls dropped, and the run fails exactly when some detector threw |
| FraudDetection.CollectAppend | trx-alert-service/src/main/java/com/toufik/trxalertservice/service/FraudDetectionService.java:31-32 | collecting two runs of outcomes back to back gives the first run's alerts followed by the second's, failing when either fails: the stream keeps the detectors' order |
| FraudDetection.CollectSnoc | trx-alert-service/src/main/java/com/toufik/trxalertservice/service/FraudDetectionService.java:31-32 | one more outcome fails the run when it threw, leaves it as it was when it raised nothing, and otherwise puts its alert after all earlier ones |
| FraudDetection.RiskScore | trx-alert-service/src/main/java/com/toufik/trxalertservice/service/FraudDetectionService.java:54-58 | a multiple of ten, 0 without alerts; each alert's share, ten times its severity, is given by RiskScoreAppend, and the range of 40 to 80 points per alert by ScoreBounds |
| FraudDetection.RiskScoreAppend | trx-alert-service/src/main/java/com/toufik/trxalertservice/service/FraudDetectionService.java:54-58 | the score is additive: two lists of alerts score the sum of their scores, and one more alert adds ten times its severity |
| FraudDetection.DetectFraud | trx-alert-service/src/main/java/com/toufik/trxalertservice/service/FraudDetectionService.java:25-57 | None exactly when an enabled detector throws; otherwise the result carries the transaction's identifier, the alerts, the score calculateRiskScore gives them, the level fromScore gives that score, the clock reading, and is fraudulent exactly when the score reaches the configured threshold |
| FraudDetection.SeveritySumBounds | trx-alert-service/src/main/java/com/toufik/trxalertservice/service/FraudDetectionService.java:54-58 | alerts whose severities all lie in lo..hi sum to between lo and hi times their number |
| FraudDetection.AlertsOfEnabledDetectors | trx-alert-service/src/main/java/com/toufik/trxalertservice/service/FraudDetectionService.java:28-32 | the alerts are exactly those of the enabled detectors that raise one; disabled detectors are never consulted |
| FraudDetection.ScoreBounds | trx-alert-service/src/main/java/com/toufik/trxalertservice/service/FraudDetectionService.java:34-35 | the score of a run's result with n alerts lies between 40n and 80n, so it is not confined to 0..100 |
| FraudDetection.NoAlertsIsClean | trx-alert-service/src/main/java/com/toufik/trxalertservice/service/FraudDetectionService.java:34-37 | a run without alerts scores 0, is LOW, and is fraudulent only under a threshold of zero or less; with no detector enabled that is always the outcome |
| FraudDetection.SampleRaises | trx-alert-service/src/main/java/com/toufik/trxalertservice/service/FraudDetectionService.java:28-35 | on the sample transfer only the cross-border (8) and small-amount (4) detectors raise |
| FraudDetection.SampleQuiet | trx-alert-service/src/main/java/com/toufik/trxalertservice/service/FraudDetectionService.java:28-35 | every other detector stays quiet on the sample transfer |
| FraudDetection.FraudulentYetLow | trx-alert-service/src/main/java/com/toufik/trxalertservice/service/FraudDetectionService.java:34-37 | alerts of severity 8 and 4 score 120: fraudulent at the default threshold of 70, yet fromScore calls that LOW |
| FraudMapper.AlertCount | trx-alert-service/src/main/java/com/toufik/trxalertservice/service/FraudMapper.java:50-52 | the count, 0 for a null list; that it always equals the length of the record's list of types is proved in FraudMapper.AlertTypesMatchCount |
| FraudMapper.AlertTypes | trx-alert-service/src/main/java/com/toufik/trxalertservice/service/FraudMapper.java:54-63 | one type name per alert in the alerts' order, empty for a null list; that the list is as long as the record's count is proved in FraudMapper.AlertTypesMatchCount |
| FraudMapper.AlertTypesMatchCount | trx-alert-service/src/main/java/com/toufik/trxalertservice/service/FraudMapper.java:17-39 | a record's list of types is as long as its alert count, whatever the result |
| FraudMapper.RecordOfDetection | trx-alert-service/src/main/java/com/toufik/trxalertservice/service/FraudMapper.java:17-39 | the record of a detection run is fraudulent exactly when its score reaches the threshold, carries the score of the run's alerts and the level fromScore gives it, one type name per alert of the enabled detectors, the run's identifier and detection time |
| FraudRules.HighRiskCountryIff | trx-alert-service/src/main/java/com/toufik/trxalertservice/fraud/service/HighRiskCountryDetectionService.java:35-63 | throws exactly when a country code is null; otherwise suspicious exactly when either code is one of the six; swapping the codes changes nothing |
| FraudRules.ThresholdAvoidanceBand | trx-alert-service/src/main/java/com/toufik/trxalertservice/fraud/service/ThresholdAvoidanceDetectionService.java:21-70 | throws exactly on a null amount; otherwise suspicious exactly when 9900.00 <= amount < 10000.00, the two narrower checks lying inside that range |
| FraudRules.ThresholdAvoidanceByValue | trx-alert-service/src/main/java/com/toufik/trxalertservice/fraud/service/ThresholdAvoidanceDetectionService.java:33-54 | the comparison is by value: 9900 without decimals is caught, 10000 is not |
| FraudRules.HighAmountIff | trx-alert-service/src/main/java/com/toufik/trxalertservice/fraud/service/HighAmountDetectionService.java:18-52 | throws exactly on a null currency or amount; for euros and unknown currencies suspicious exactly at 1,000,000 or more; the currency's case does not matter |
| FraudRules.HighAmountConversions | trx-alert-service/src/main/java/com/toufik/trxalertservice/fraud/service/HighAmountDetectionService.java:43-52 | the conversion decides: 1,000,000 EUR is caught, 1,000,000 USD (850,000.00) is not, 900,000 GBP (1,035,000.00) is |
| FraudRules.HighAmountMonotone | trx-alert-service/src/main/java/com/toufik/trxalertservice/fraud/service/HighAmountDetectionService.java:29-52 | for a fixed currency a larger amount than one flagged is flagged too |
| FraudRules.OffHoursIff | trx-alert-service/src/main/java/com/toufik/trxalertservice/fraud/service/OffHoursDetectionService.java:21-46 | throws exactly on a null timestamp; otherwise suspicious exactly when the hour is 23 or below 6, whatever the date |
| FraudRules.SuspiciousRemittanceByEquals | trx-alert-service/src/main/java/com/toufik/trxalertservice/fraud/service/SuspiciousRemittanceDetectionService.java:16-43 | throws exactly on a null amount; otherwise suspicious exactly when the amount is 999, 9999, 99999 or 999999 at scale 0, so 999.00 is not caught although it compares equal to 999 |
| FraudEngine.DetermineSeverity | trx-alert-service/src/main/java/com/toufik/trxalertservice/fraud/service/FraudDetectionEngine.java:74-81 | HIGH for the country and threshold rules, MEDIUM for structuring, LOW for any other name |
| FraudEngine.FiredRules | trx-alert-service/src/main/java/com/toufik/trxalertservice/fraud/service/FraudDetectionEngine.java:41-50 | the rules that fire are exactly the list's rules whose check answers true; None exactly when one of them throws |
| FraudEngine.FiredRulesAppend | trx-alert-service/src/main/java/com/toufik/trxalertservice/fraud/service/FraudDetectionEngine.java:41-50 | the rules firing in two lists run back to back are those of the first followed by those of the second, failing when either fails: the loop keeps the list's order |
| FraudEngine.FiredRulesSnoc | trx-alert-service/src/main/java/com/toufik/trxalertservice/fraud/service/FraudDetectionEngine.java:41-50 | one more rule fails the run when it throws, and when it fires goes after all the earlier rules that fired |
| FraudEngine.AlertsFor | trx-alert-service/src/main/java/com/toufik/trxalertservice/fraud/service/FraudDetectionEngine.java:63-72 | one alert per fired rule, in order; that every alert the engine raises is HIGH and names one of its two rules is proved in FraudEngine.EngineAlertsAreHigh |
| FraudEngine.RunRules | trx-alert-service/src/main/java/com/toufik/trxalertservice/fraud/service/FraudDetectionEngine.java:40-60 | the loop evaluates every rule and returns one alert per rule that fires, in rule order, or fails when a rule throws |
| FraudEngine.DetectFraud | trx-alert-service/src/main/java/com/toufik/trxalertservice/fraud/service/FraudDetectionEngine.java:22-61 | detectFraud runs the high-risk-country rule, then the threshold-avoidance rule |
| FraudEngine.EngineOutcome | trx-alert-service/src/main/java/com/toufik/trxalertservice/fraud/service/FraudDetectionEngine.java:35-57 | the engine fails exactly when a country code or the amount is null; otherwise it raises the country alert when either code is high-risk, then the threshold alert when 9900.00 <= amount < 10000.00; no alert means no rule fired |
| FraudEngine.RuleSeverity | trx-alert-service/src/main/java/com/toufik/trxalertservice/fraud/service/FraudDetectionEngine.java:74-81 | the severity each rule gets by its name |
| FraudEngine.EngineAlertsAreHigh | trx-alert-service/src/main/java/com/toufik/trxalertservice/fraud/service/FraudDetectionEngine.java:63-81 | every alert of the engine is HIGH, carries the transaction identifier and the clock reading, and names one of the engine's two rules |
| Structuring.CountInWindow | trx-alert-service/src/main/java/com/toufik/trxalertservice/fraud/service/StructuringDetectionService.java:107-116 | None exactly when a record has a null timestamp, otherwise at most the number of records; the count itself is fixed by Structuring.CountAppend: one more record adds one exactly when it lies within the window |
| Structuring.Retained | trx-alert-service/src/main/java/com/toufik/trxalertservice/fraud/service/StructuringDetectionService.java:127-129 | exactly the records not before the two-hour cutoff are kept |
| Structuring.RetainedAppend | trx-alert-service/src/main/java/com/toufik/trxalertservice/fraud/service/StructuringDetectionService.java:127-129 | pruning two stretches of records back to back keeps the first stretch's survivors followed by the second's: removeIf keeps the order |
| Structuring.RetainedSnoc | trx-alert-service/src/main/java/com/toufik/trxalertservice/fraud/service/StructuringDetectionService.java:127-129 | one more record is kept, after all earlier survivors, exactly when it lies within the retention period |
| Structuring.Cleaned | trx-alert-service/src/main/java/com/toufik/trxalertservice/fraud/service/StructuringDetectionService.java:87-97 | each history pruned to the cutoff, then the accounts whose history became empty removed |
| Structuring.StructuringDetectionService.IsSuspicious | trx-alert-service/src/main/java/com/toufik/trxalertservice/fraud/service/StructuringDetectionService.java:37-75 | the new histories and the verdict are those Check defines: amounts of 1000.00 and more leave everything unchanged, a small amount appends one record to the sender's history, and the call is suspicious exactly when the 60-minute window then holds five records or more; a null amount, account or timestamp throws |
| Structuring.StructuringDetectionService.CleanupOldRecords | trx-alert-service/src/main/java/com/toufik/trxalertservice/fraud/service/StructuringDetectionService.java:87-97 | completes exactly when every record has a timestamp, and then the histories are pruned to the last two hours and emptied accounts dropped; otherwise nothing changes |
| Structuring.CountAppend | trx-alert-service/src/main/java/com/toufik/trxalertservice/fraud/service/StructuringDetectionService.java:102-116 | appending a record adds one to the count exactly when it lies in the window |
| Structuring.CheckLeavesHistoriesAlone | trx-alert-service/src/main/java/com/toufik/trxalertservice/fraud/service/StructuringDetectionService.java:47-50 | amounts of 1000.00 and more, null amounts and null accounts never touch the histories; only the first answers not suspicious, the others throw |
| Structuring.CheckAppendsOneRecord | trx-alert-service/src/main/java/com/toufik/trxalertservice/fraud/service/StructuringDetectionService.java:53-57 | a small amount appends exactly one record with the transaction's timestamp and amount to its account's history, and every other account keeps its history |
| Structuring.SuspiciousIffFourEarlier | trx-alert-service/src/main/java/com/toufik/trxalertservice/fraud/service/StructuringDetectionService.java:56-67 | the transaction is suspicious exactly when at least four earlier records of the account lie in the 60 minutes up to its time, the transaction counting itself |
| Structuring.FifthRepeatIsSuspicious | trx-alert-service/src/main/java/com/toufik/trxalertservice/fraud/service/StructuringDetectionService.java:24-67 | the same small transaction sent five times from a fresh state is suspicious the fifth time and not before |
| Structuring.CleanupProperties | trx-alert-service/src/main/java/com/toufik/trxalertservice/fraud/service/StructuringDetectionService.java:87-97 | after a cleanup no history is empty, every record left is at most two hours old, every record of the last two hours stays, and cleaning again changes nothing |
| Structuring.RetainedIdempotent | trx-alert-service/src/main/java/com/toufik/trxalertservice/fraud/service/StructuringDetectionService.java:127-129 | pruning an already pruned history changes nothing |
| Structuring.CleanupKeepsWindow | trx-alert-service/src/main/java/com/toufik/trxalertservice/fraud/service/StructuringDetectionService.java:88-91 | two hours of retention cover the 60-minute window: the count for a time at most an hour before the cleanup is unchanged |
| Structuring.StructuringSeverity | trx-alert-service/src/main/java/com/toufik/trxalertservice/fraud/service/FraudDetectionEngine.java:78 | the engine's severity table rates the structuring rule MEDIUM |
| TransactionStore.FraudReasons | trx-alert-service/src/main/java/com/toufik/trxalertservice/service/TransactionService.java:45-47 | one reason per alert, in order; that each reason splits back at its first colon into its alert's rule name and description is proved in TransactionStore.FraudReasonsReadBack |
| TransactionStore.SplitReasonRoundTrip | trx-alert-service/src/main/java/com/toufik/trxalertservice/service/TransactionService.java:45-47 | a reason "name: description" splits back into the name and the description whenever the name holds no colon, whatever the description holds |
| TransactionStore.FraudReasonsReadBack | trx-alert-service/src/main/java/com/toufik/trxalertservice/service/TransactionService.java:45-47 | every stored reason reads back as its alert's rule name and description, for rule names without a colon |
| TransactionStore.EntityFor | trx-alert-service/src/main/java/com/toufik/trxalertservice/service/TransactionService.java:23-56 | the entity copies the event's transaction and MT103 text unchanged, is fraudulent exactly when there are alerts, lists one reason per alert and records the processing time |
| TransactionStore.WithFlag | trx-alert-service/src/main/java/com/toufik/trxalertservice/service/TransactionService.java:62-64 | the documents with the given flag, all of them and only them |
| TransactionStore.FilterBetween | trx-alert-service/src/main/java/com/toufik/trxalertservice/service/TransactionService.java:66-68 | the fraudulent documents whose timestamp lies in the interval, all of them and only them; a document without timestamp never matches |
| TransactionStore.TransactionService.SaveTransaction | trx-alert-service/src/main/java/com/toufik/trxalertservice/service/TransactionService.java:23-56 | the saved document is EntityFor the event under the assigned identifier, and it is appended to the repository |
| TransactionStore.TransactionService.FraudulentTransactions | trx-alert-service/src/main/java/com/toufik/trxalertservice/service/TransactionService.java:62-64 | exactly the repository's fraudulent documents |
| TransactionStore.TransactionService.FraudulentTransactionsBetween | trx-alert-service/src/main/java/com/toufik/trxalertservice/service/TransactionService.java:66-68 | exactly the repository's fraudulent documents dated within the interval |
| TransactionStore.SaveExtendsFraudulent | trx-alert-service/src/main/java/com/toufik/trxalertservice/service/TransactionService.java:44-55 | saving an event with alerts appends it to the fraudulent list; one without alerts leaves that list as it was |
| GenTransaction.ExtractCountryCode | trx-generator-service/src/main/java/com/toufik/trxgeneratorservice/mt103trx/model/Transaction.java:51-56 | present exactly for a BIC of six or more characters, and then its characters 5 and 6 |
| GenTransaction.NewTransaction | trx-generator-service/src/main/java/com/toufik/trxgeneratorservice/mt103trx/model/Transaction.java:32-49 | the constructor keeps every argument in its field, has no IBANs, and takes each country code from its BIC (null for a BIC under six characters) |
| GenTransaction.CrossBorderSymmetric | trx-generator-service/src/main/java/com/toufik/trxgeneratorservice/mt103trx/model/Transaction.java:58-61 | swapping the two country codes does not change cross-border status |
| GenTransaction.NewTransactionCrossBorder | trx-generator-service/src/main/java/com/toufik/trxgeneratorservice/mt103trx/model/Transaction.java:47-61 | a freshly constructed transaction is cross-border exactly when both BICs carry a country code and the codes differ |
| BankData.ParseInt | trx-generator-service/src/main/java/com/toufik/trxgeneratorservice/mt103trx/service/BankDataService.java:40-45 | parseInt accepts exactly an optionally signed decimal that fits in an int, and gives its value |
| BankData.ParseIntToString | trx-generator-service/src/main/java/com/toufik/trxgeneratorservice/mt103trx/service/BankDataService.java:42 | Integer.parseInt reads back what Integer.toString prints |
| BankData.ParseBankLine | trx-generator-service/src/main/java/com/toufik/trxgeneratorservice/mt103trx/service/BankDataService.java:34-56 | a row with fewer than five fields gives no bank; otherwise the trimmed fields, the prefix or the country code, and a length only when it parses |
| BankData.ParsedBankFields | trx-generator-service/src/main/java/com/toufik/trxgeneratorservice/mt103trx/service/BankDataService.java:36-56 | a parsed bank's codes come from the first fields; its IBAN prefix is the sixth field or, when missing or blank, the country code; a length is present only when the seventh field parses |
| BankData.BankRowParses | trx-generator-service/src/main/java/com/toufik/trxgeneratorservice/mt103trx/service/BankDataService.java:34-56 | reading back a row written from a bank gives the same bank |
| BankData.CellsParse | trx-generator-service/src/main/java/com/toufik/trxgeneratorservice/mt103trx/service/BankDataService.java:34-37 | a row joined from six or seven cells without commas splits back into those cells |
| BankData.ParsedRowsAll | trx-generator-service/src/main/java/com/toufik/trxgeneratorservice/mt103trx/service/BankDataService.java:28-59 | when every data row has its five fields, row i gives bank i |
| BankData.ParsedRowsOrigin | trx-generator-service/src/main/java/com/toufik/trxgeneratorservice/mt103trx/service/BankDataService.java:26-35 | every loaded bank comes from some data row, never from the header |
| BankData.BankDataService.LoadBanksFromCsv | trx-generator-service/src/main/java/com/toufik/trxgeneratorservice/mt103trx/service/BankDataService.java:21-66 | the header is skipped and every data row with five fields or more appends its bank, in file order |
| BankData.BankDataService.GetRandomBank | trx-generator-service/src/main/java/com/toufik/trxgeneratorservice/mt103trx/service/BankDataService.java:68-70 | None on an empty directory, else the bank at the drawn index |
| BankData.BankDataService.GetAllBanks | trx-generator-service/src/main/java/com/toufik/trxgeneratorservice/mt103trx/service/BankDataService.java:120-122 | a copy equal to the directory's list, which stays as it was |
| BankData.Expand | trx-generator-service/src/main/java/com/toufik/trxgeneratorservice/mt103trx/service/BankDataService.java:101-107 | a digit stays as it is and a letter becomes two decimal digits |
| BankData.ExpandAll | trx-generator-service/src/main/java/com/toufik/trxgeneratorservice/mt103trx/service/BankDataService.java:100-107 | mod97's first loop builds the expansion of every character in order |
| BankData.Remainder | trx-generator-service/src/main/java/com/toufik/trxgeneratorservice/mt103trx/service/BankDataService.java:109-113 | mod97's second loop carries the remainder with Java's %, which stays strictly between -97 and 97 |
| BankData.Mod97 | trx-generator-service/src/main/java/com/toufik/trxgeneratorservice/mt103trx/service/BankDataService.java:99-114 | the two loops compute Mod97Of, strictly between -97 and 97 and within 0..96 on letters and digits |
| BankData.RemainderIsMod | trx-generator-service/src/main/java/com/toufik/trxgeneratorservice/mt103trx/service/BankDataService.java:109-113 | on decimal digits the carried remainder is the digit string's value modulo 97 |
| BankData.Mod97IsRemainder | trx-generator-service/src/main/java/com/toufik/trxgeneratorservice/mt103trx/service/BankDataService.java:99-114 | on letters and digits mod97 is the value of the expanded digit string modulo 97, so it lies in 0..96 |
| BankData.ShiftMod | trx-generator-service/src/main/java/com/toufik/trxgeneratorservice/mt103trx/service/BankDataService.java:111 | appending a digit commutes with reducing modulo 97 |
| BankData.BankCode | trx-generator-service/src/main/java/com/toufik/trxgeneratorservice/mt103trx/service/BankDataService.java:79-80 | the routing number's decimal digits, at most the first eight |
| BankData.PadAccount | trx-generator-service/src/main/java/com/toufik/trxgeneratorservice/mt103trx/service/BankDataService.java:91-97 | the corrected account part: exactly n digits whose value is the hash's magnitude modulo 10^n |
| BankData.PadAccountAgrees | trx-generator-service/src/main/java/com/toufik/trxgeneratorservice/mt103trx/service/BankDataService.java:95-96 | the corrected and the as-written account part agree on every hash except Integer.MIN_VALUE |
| BankData.Iban | trx-generator-service/src/main/java/com/toufik/trxgeneratorservice/mt103trx/service/BankDataService.java:72-89 | the no-IBAN sentinel whenever the declared length is null or 0; the layout of the other case is IbanLayout (with the corrected account part, see Findings) |
| BankData.CheckDigitsShape | trx-generator-service/src/main/java/com/toufik/trxgeneratorservice/mt103trx/service/BankDataService.java:85-86 | the check digits are two digits whenever the prefix is letters and digits |
| BankData.IbanLayout | trx-generator-service/src/main/java/com/toufik/trxgeneratorservice/mt103trx/service/BankDataService.java:72-97 | the IBAN is prefix, two check digits, bank code and an account part of the needed width, so it has the declared length when that length leaves room for the account |
| BankData.IbanCheckDigitsValid | trx-generator-service/src/main/java/com/toufik/trxgeneratorservice/mt103trx/service/BankDataService.java:84-88 | every IBAN built for an alphanumeric prefix passes the ISO 7064 MOD 97-10 check once its first four characters are moved to the end |
| BankData.RearrangedValue | trx-generator-service/src/main/java/com/toufik/trxgeneratorservice/mt103trx/service/BankDataService.java:86 | with check digits 98 - (N*100 mod 97), the number N*100 + check is 1 modulo 97 |
| BankData.IbanAsWrittenMinValue | trx-generator-service/src/main/java/com/toufik/trxgeneratorservice/mt103trx/service/BankDataService.java:95-96 | for a German bank and an account whose hash is Integer.MIN_VALUE the as-written account part is "-2147483648" and the IBAN is longer than 22 characters, while the corrected one has 22 |
| BankData.BankDataService.GenerateIban | trx-generator-service/src/main/java/com/toufik/trxgeneratorservice/mt103trx/service/BankDataService.java:72-114 | the method, with mod97 as loops, returns Iban for the bank and the account's hash (with the corrected account part, see Findings) |
| TransactionFactory.DetermineCurrency | trx-generator-service/src/main/java/com/toufik/trxgeneratorservice/mt103trx/service/BaseTransactionFactory.java:85-100 | the settlement currency; that a transfer touching a US bank always settles in USD is proved in TransactionFactory.USBankSettlesInDollars, and that the currency is EUR, USD or the sender's own in TransactionFactory.CurrencyChoices |
| TransactionFactory.USBankSettlesInDollars | trx-generator-service/src/main/java/com/toufik/trxgeneratorservice/mt103trx/service/BaseTransactionFactory.java:88-99 | a transfer touching a US bank settles in USD |
| TransactionFactory.CurrencyChoices | trx-generator-service/src/main/java/com/toufik/trxgeneratorservice/mt103trx/service/BaseTransactionFactory.java:85-92 | the currency is EUR, USD or the sender's own, and swapping the banks does not change it when the countries decide |
| TransactionFactory.BaseTransaction | trx-generator-service/src/main/java/com/toufik/trxgeneratorservice/mt103trx/service/BaseTransactionFactory.java:25-54 | the assembled transaction has the drawn banks' BICs, IBANs built for its accounts, the chosen currency, and the banks' own country codes (IBANs with the corrected account part, see Findings) |
| TransactionFactory.BaseTransactionCrossBorder | trx-generator-service/src/main/java/com/toufik/trxgeneratorservice/mt103trx/service/BaseTransactionFactory.java:48-51 | a base transaction is cross-border exactly when the two banks' countries differ, whatever their BICs say |
| TransactionFactory.BaseTransactionFactory.GetDistinctToBank | trx-generator-service/src/main/java/com/toufik/trxgeneratorservice/mt103trx/service/BaseTransactionFactory.java:56-66 | at most eleven draws; every draw but the last had the sender's BIC, and the last bank differs from the sender's or all eleven draws were used |
| TransactionFactory.BaseTransactionFactory.GenerateAccountNumber | trx-generator-service/src/main/java/com/toufik/trxgeneratorservice/mt103trx/service/BaseTransactionFactory.java:102-111 | twelve digits in the long form, else ten, each the matching draw |
| TransactionFactory.BaseTransactionFactory.CreateBaseTransaction | trx-generator-service/src/main/java/com/toufik/trxgeneratorservice/mt103trx/service/BaseTransactionFactory.java:25-54 | None exactly on an empty directory; otherwise the BaseTransaction of the sender bank drawn, the receiving bank getDistinctToBank's retries reach, the accounts the digit draws spell and the status the status draw picks (IBANs with the corrected account part, see Findings) |
| FraudGenerator.WeightedOccurrences | trx-generator-service/src/main/java/com/toufik/trxgeneratorservice/mt103trx/service/FraudTransactionGeneratorService.java:94-105 | in a weighted list of distinct scenarios each occurs exactly its weight times and any other scenario never |
| FraudGenerator.WeightedOrder | trx-generator-service/src/main/java/com/toufik/trxgeneratorservice/mt103trx/service/FraudTransactionGeneratorService.java:96-103 | the weighted list keeps declaration order and holds only listed scenarios |
| FraudGenerator.WeightedPrefixLengths | trx-generator-service/src/main/java/com/toufik/trxgeneratorservice/mt103trx/service/FraudTransactionGeneratorService.java:94-105 | the list grows to 10, 25, 45 and 53 entries scenario by scenario |
| FraudGenerator.WeightedScenarioList | trx-generator-service/src/main/java/com/toufik/trxgeneratorservice/mt103trx/service/FraudTransactionGeneratorService.java:94-105 | the list has 53 entries, each scenario as often as its weight, in declaration order |
| FraudGenerator.BuildWeightedScenarioList | trx-generator-service/src/main/java/com/toufik/trxgeneratorservice/mt103trx/service/FraudTransactionGeneratorService.java:94-105 | the nested loops build exactly the weighted list |
| FraudGenerator.SelectWeightedFraudScenario | trx-generator-service/src/main/java/com/toufik/trxgeneratorservice/mt103trx/service/FraudTransactionGeneratorService.java:86-89 | the scenario is the weighted list's entry at the draw modulo 53, so each one has probability weight/53 |
| FraudGenerator.Newest | trx-generator-service/src/main/java/com/toufik/trxgeneratorservice/mt103trx/service/FraudTransactionGeneratorService.java:110-119 | polling from the front until at most cap remain keeps min(length, cap) entries |
| FraudGenerator.NewestIsSuffix | trx-generator-service/src/main/java/com/toufik/trxgeneratorservice/mt103trx/service/FraudTransactionGeneratorService.java:111-116 | the kept entries are a suffix of the queue, at most cap long, ending with the entry offered last |
| FraudGenerator.NewestBelowCapacity | trx-generator-service/src/main/java/com/toufik/trxgeneratorservice/mt103trx/service/FraudTransactionGeneratorService.java:111-116 | below capacity nothing is dropped |
| FraudGenerator.NewestEvictsOldest | trx-generator-service/src/main/java/com/toufik/trxgeneratorservice/mt103trx/service/FraudTransactionGeneratorService.java:111-116 | offering to a full queue drops exactly its oldest entry |
| FraudGenerator.FraudTransactionGenerator.AddToHistory | trx-generator-service/src/main/java/com/toufik/trxgeneratorservice/mt103trx/service/FraudTransactionGeneratorService.java:110-119 | the history becomes the newest 100 of the old history plus the transaction, which is last |
| FraudGenerator.FraudTransactionGenerator.GetRecentTransactions | trx-generator-service/src/main/java/com/toufik/trxgeneratorservice/mt103trx/service/FraudTransactionGeneratorService.java:124-126 | a snapshot of the history, oldest first |
| Mt103Formatter.TruncateToLength | trx-generator-service/src/main/java/com/toufik/trxgeneratorservice/mt103trx/service/MT103MessageFormatter.java:191-194 | "" for null; otherwise the first min(length, maxLength) characters |
| Mt103Formatter.FormatLTAddress | trx-generator-service/src/main/java/com/toufik/trxgeneratorservice/mt103trx/service/MT103MessageFormatter.java:170-179 | the trimmed upper-cased BIC followed by XXX0 at 8 characters, unchanged at 12, followed by 0 at any other length |
| Mt103Formatter.LTAddressLength | trx-generator-service/src/main/java/com/toufik/trxgeneratorservice/mt103trx/service/MT103MessageFormatter.java:170-179 | the LT address has 12 characters exactly for 8-, 11- and 12-character BICs |
| Mt103Formatter.FormatAmount | trx-generator-service/src/main/java/com/toufik/trxgeneratorservice/mt103trx/service/MT103MessageFormatter.java:184-186 | same length, no point left, every other character kept |
| Mt103Formatter.FormatAmountInverse | trx-generator-service/src/main/java/com/toufik/trxgeneratorservice/mt103trx/service/MT103MessageFormatter.java:184-186 | turning the commas back into points recovers BigDecimal.toString |
| Mt103Formatter.NoCommaInToString | trx-generator-service/src/main/java/com/toufik/trxgeneratorservice/mt103trx/service/MT103MessageFormatter.java:65 | BigDecimal.toString never prints a comma |
| Mt103Formatter.ChargeBearer | trx-generator-service/src/main/java/com/toufik/trxgeneratorservice/mt103trx/service/MT103MessageFormatter.java:79 | SHA exactly for cross-border transactions, OUR otherwise |
| Mt103Formatter.NeedsIntermediaryBank | trx-generator-service/src/main/java/com/toufik/trxgeneratorservice/mt103trx/service/MT103MessageFormatter.java:199-207 | no intermediary exactly when both BICs have six characters or more and their country characters agree; a short BIC makes substring throw and the catch answers true |
| Mt103Formatter.IntermediaryForCrossBorder | trx-generator-service/src/main/java/com/toufik/trxgeneratorservice/mt103trx/service/MT103MessageFormatter.java:199-207 | a constructed cross-border transaction always gets an intermediary; a domestic one only when a BIC is under six characters |
| Mt103Formatter.IntermediaryBankSwift | trx-generator-service/src/main/java/com/toufik/trxgeneratorservice/mt103trx/service/MT103MessageFormatter.java:219-226 | the correspondent written into field 56A is a bank of the receiver's country whenever one is listed for that country, and a German bank otherwise: its BIC carries that country code in positions 5 and 6 |
| Mt103Formatter.CorrespondentsInTheirCountry | trx-generator-service/src/main/java/com/toufik/trxgeneratorservice/mt103trx/util/MT103Constants.java:42-54 | every listed correspondent's BIC carries, in positions 5 and 6, the code of the country it is listed for |
| Mt103Formatter.BuildRemittanceInfo | trx-generator-service/src/main/java/com/toufik/trxgeneratorservice/mt103trx/service/MT103MessageFormatter.java:231-241 | fixed text with the first eight identifier characters, ending with the cross-border note for a cross-border transfer |
| Mt103Formatter.GenerateCityCountry | trx-generator-service/src/main/java/com/toufik/trxgeneratorservice/mt103trx/service/MT103MessageFormatter.java:260-269 | the city line of fields 50K and 59 starts with a capital letter whatever the country code, so it never looks like a field tag; SimpleTransactionFilter.CityLinePasses proves the filter's line check then accepts it |
| Mt103Formatter.CitiesCapitalised | trx-generator-service/src/main/java/com/toufik/trxgeneratorservice/mt103trx/util/MT103Constants.java:17-39 | every entry of the city table starts with a capital letter |
| Mt103Formatter.HexString | trx-generator-service/src/main/java/com/toufik/trxgeneratorservice/mt103trx/service/MT103MessageFormatter.java:295-304 | one HEX_CHARS character per draw |
| Mt103Formatter.GenerateHexString | trx-generator-service/src/main/java/com/toufik/trxgeneratorservice/mt103trx/service/MT103MessageFormatter.java:295-304 | the loop builds exactly HexString of its draws |
| Mt103Formatter.Block4Groups | trx-generator-service/src/main/java/com/toufik/trxgeneratorservice/mt103trx/service/MT103MessageFormatter.java:49-96 | block 4 is the mandatory, accounting, party and optional groups, in this order |
| Mt103Formatter.GroupTags | trx-generator-service/src/main/java/com/toufik/trxgeneratorservice/mt103trx/service/MT103MessageFormatter.java:63-153 | each group carries its tags: 20 23B 32A; 33B 71A; 50K 52A 53B; 57A 59; 70 72 |
| Mt103Formatter.Block4TagOrder | trx-generator-service/src/main/java/com/toufik/trxgeneratorservice/mt103trx/service/MT103MessageFormatter.java:49-153 | the tags are 20, 23B, 32A, 33B, 71A, 50K, 52A, 53B, [56A], 57A, 59, 70, 72, with 56A exactly when an intermediary is needed |
| Mt103Formatter.ReferenceInBlocks3And4 | trx-generator-service/src/main/java/com/toufik/trxgeneratorservice/mt103trx/service/MT103MessageFormatter.java:18-43 | field 20 and header field 108 both carry the identifier's first 16 characters |
| Mt103Formatter.ReferenceInBlock3 | trx-generator-service/src/main/java/com/toufik/trxgeneratorservice/mt103trx/service/MT103MessageFormatter.java:43 | the header ends with the 108 field holding the reference |
| Mt103Formatter.HeaderEndsWithReference | trx-generator-service/src/main/java/com/toufik/trxgeneratorservice/mt103trx/service/MT103MessageFormatter.java:43 | whatever the LT addresses, block 3 closes the header with the reference |
| Mt103Formatter.AmountsUseDecimalComma | trx-generator-service/src/main/java/com/toufik/trxgeneratorservice/mt103trx/service/MT103MessageFormatter.java:65-82 | fields 32A and 33B print the amount with a decimal comma and no point |
| Mt103Formatter.ChargeBearerField | trx-generator-service/src/main/java/com/toufik/trxgeneratorservice/mt103trx/service/MT103MessageFormatter.java:79-83 | field 71A is SHA exactly for cross-border transfers, OUR otherwise |
| Mt103Formatter.IntermediaryField | trx-generator-service/src/main/java/com/toufik/trxgeneratorservice/mt103trx/service/MT103MessageFormatter.java:120-125 | field 56A is present exactly when an intermediary is needed, and names the correspondent |
| Mt103Formatter.IntermediaryTagPosition | trx-generator-service/src/main/java/com/toufik/trxgeneratorservice/mt103trx/service/MT103MessageFormatter.java:89-96 | 56A can only sit ninth, after 53B |
| Mt103Formatter.CustomerAccountLines | trx-generator-service/src/main/java/com/toufik/trxgeneratorservice/mt103trx/service/MT103MessageFormatter.java:98-143 | fields 50K and 59 open with "/" and the IBAN when it is usable, else the account number |
| Mt103Formatter.CustomerFieldOpens | trx-generator-service/src/main/java/com/toufik/trxgeneratorservice/mt103trx/service/MT103MessageFormatter.java:98-110 | a customer field opens with / and the IBAN when it is usable (non-null, non-empty, not the sentinel), else the account number |
| Mt103Formatter.TrailerShape | trx-generator-service/src/main/java/com/toufik/trxgeneratorservice/mt103trx/service/MT103MessageFormatter.java:158-161 | the trailer is 37 characters: a line feed and {5:{MAC:, 8 HEX_CHARS, }{CHK:, 12 HEX_CHARS and }} |
| Mt103Formatter.AppendHeader | trx-generator-service/src/main/java/com/toufik/trxgeneratorservice/mt103trx/service/MT103MessageFormatter.java:31-44 | the builder gains exactly the blocks 1, 2 and 3 of the transaction |
| Mt103Formatter.AppendMandatoryFields | trx-generator-service/src/main/java/com/toufik/trxgeneratorservice/mt103trx/service/MT103MessageFormatter.java:63-72 | the builder gains exactly the rendered 20, 23B and 32A fields |
| Mt103Formatter.AppendAccountingFields | trx-generator-service/src/main/java/com/toufik/trxgeneratorservice/mt103trx/service/MT103MessageFormatter.java:77-84 | the builder gains exactly the rendered 33B and 71A fields |
| Mt103Formatter.AppendPartyFields | trx-generator-service/src/main/java/com/toufik/trxgeneratorservice/mt103trx/service/MT103MessageFormatter.java:89-143 | the builder gains exactly the rendered party fields, 56A included when needed |
| Mt103Formatter.AppendOptionalFields | trx-generator-service/src/main/java/com/toufik/trxgeneratorservice/mt103trx/service/MT103MessageFormatter.java:148-153 | the builder gains exactly fields 70 and 72 |
| Mt103Formatter.AppendMessageText | trx-generator-service/src/main/java/com/toufik/trxgeneratorservice/mt103trx/service/MT103MessageFormatter.java:49-58 | the builder gains block 4 around the four groups |
| Mt103Formatter.AppendTrailer | trx-generator-service/src/main/java/com/toufik/trxgeneratorservice/mt103trx/service/MT103MessageFormatter.java:158-161 | the builder gains the trailer of the drawn MAC and checksum |
| Mt103Formatter.FormatToMt103 | trx-generator-service/src/main/java/com/toufik/trxgeneratorservice/mt103trx/service/MT103MessageFormatter.java:16-26 | the message is the header, block 4 and trailer the lemmas above describe |
| FraudFormatter.PatternConditions | trx-generator-service/src/main/java/com/toufik/trxgeneratorservice/mt103trx/service/FraudMT103MessageFormatter.java:53-81 | seven conditions in the order tried; the last always holds |
| FraudFormatter.FirstMatchWins | trx-generator-service/src/main/java/com/toufik/trxgeneratorservice/mt103trx/service/FraudMT103MessageFormatter.java:53-81 | branch k is taken exactly when its condition holds and no earlier one does |
| FraudFormatter.PatternTextDecodes | trx-generator-service/src/main/java/com/toufik/trxgeneratorservice/mt103trx/service/FraudMT103MessageFormatter.java:55-80 | each branch's text reads back as that branch: the seven texts open differently |
| FraudFormatter.PatternTextEndsWithReference | trx-generator-service/src/main/java/com/toufik/trxgeneratorservice/mt103trx/service/FraudMT103MessageFormatter.java:55-80 | every text but the small-amount one ends with the reference |
| FraudFormatter.CharacteristicRemittance | trx-generator-service/src/main/java/com/toufik/trxgeneratorservice/mt103trx/service/FraudMT103MessageFormatter.java:49-84 | the text reads back as the branch taken, and ends with the first eight identifier characters unless it is the small-amount text |
| FraudFormatter.LargeValueDominates | trx-generator-service/src/main/java/com/toufik/trxgeneratorservice/mt103trx/service/FraudMT103MessageFormatter.java:54-56 | an amount of 15000 or more by value always gives the large-value text with the reference |
| FraudFormatter.SmallAmountCarriesNoReference | trx-generator-service/src/main/java/com/toufik/trxgeneratorservice/mt103trx/service/FraudMT103MessageFormatter.java:66-73 | the small-amount text is chosen exactly for amounts under 1000 that are neither round nor off-hours |
| FraudFormatter.RemittanceInputs | trx-generator-service/src/main/java/com/toufik/trxgeneratorservice/mt103trx/service/FraudMT103MessageFormatter.java:49-100 | the text depends only on the amount's value, the round answer, the hour, cross-border status and the short reference; the factory is never consulted |
| FraudFormatter.SameComparisons | trx-generator-service/src/main/java/com/toufik/trxgeneratorservice/mt103trx/service/FraudMT103MessageFormatter.java:54-71 | amounts equal by compareTo compare alike with any bound |
| FraudFormatter.SameShapeAsPlainMessage | trx-generator-service/src/main/java/com/toufik/trxgeneratorservice/mt103trx/service/FraudMT103MessageFormatter.java:113-265 | the fraud message has the plain message's header, trailer and block-4 fields, field 70 alone excepted |
| FraudFormatter.AppendFraudSpecificOptionalFields | trx-generator-service/src/main/java/com/toufik/trxgeneratorservice/mt103trx/service/FraudMT103MessageFormatter.java:42-47 | the builder gains field 70 with the characteristic text and field 72 |
| FraudFormatter.AppendMessageTextWithFraudInfo | trx-generator-service/src/main/java/com/toufik/trxgeneratorservice/mt103trx/service/FraudMT103MessageFormatter.java:31-40 | the builder gains block 4 with the fraud remittance text |
| FraudFormatter.FormatToMt103 | trx-generator-service/src/main/java/com/toufik/trxgeneratorservice/mt103trx/service/FraudMT103MessageFormatter.java:20-29 | the message is the plain layout with the characteristic remittance in field 70 |
| Mt103Checks.LeadingDigits | trx-validation-service/invalid.java:314 | the longest all-digit prefix: every character before it is a digit and the next one is not |
| Mt103Checks.AmountPatternShapes | trx-validation-service/invalid.java:314 | ^\d+([,.]\d{1,2})?$ accepts digits alone and digits, a comma or point and one or two digits; with a non-digit separator nothing else matches |
| Mt103Checks.AmountPatternExcludes | trx-validation-service/invalid.java:314 | an amount the pattern accepts starts with a digit, has no sign and no doubled separator |
| Mt103Checks.ParsePairOfDigits | trx-validation-service/invalid.java:493-495 | on six digits each two-character parseInt succeeds with the pair's decimal value |
| Mt103Checks.CollectMeaning | trx-validation-service/invalid.java:330-341 | collecting every item's errors gives none exactly when no item has an error, and each error comes from some item |
| Mt103Checks.FirstMissing | trx-validation-service/src/main/java/com/toufik/trxvalidationservice/service/SimpleTransactionFilterService.java:107-115 | None exactly when the content holds every item; otherwise prefix plus the first item it lacks |
| Mt103Checks.CheckAllPresent | trx-validation-service/src/main/java/com/toufik/trxvalidationservice/service/SimpleTransactionFilterService.java:107-115 | the loop that returns at the first missing item computes FirstMissing |
| Mt103Checks.FirstFailure | trx-validation-service/src/main/java/com/toufik/trxvalidationservice/service/SimpleTransactionFilterService.java:171-201 | None exactly when every item passes; otherwise the first item's failure, all earlier items passing |
| Mt103FieldValidator.MandatoryFieldErrors | trx-validation-service/invalid.java:316-341 | a single null-or-empty error for missing content; otherwise one error per missing :20:, :23B:, :32A: tag, in that order, and none exactly when all three are present |
| Mt103FieldValidator.MandatoryFieldErrorsEmpty | trx-validation-service/invalid.java:316-341 | the mandatory check passes exactly a non-empty message holding the three tags |
| Mt103FieldValidator.BicCandidate | trx-validation-service/invalid.java:435-447 | a candidate taken from a BIC field's line is 8 to 11 characters with no line break |
| Mt103FieldValidator.ExtractedBicsShaped | trx-validation-service/invalid.java:424-451 | at most one candidate per BIC tag, each of BIC shape |
| Mt103FieldValidator.ExtractBicFields | trx-validation-service/invalid.java:424-451 | the loop over :52A:, :57A: and :59: collects exactly the candidates of the tags present |
| Mt103FieldValidator.ShapedBicError | trx-validation-service/invalid.java:350-366 | a candidate of BIC shape is reported exactly when it fails the BIC pattern, and never as a length error |
| Mt103FieldValidator.ValidateBicFormat | trx-validation-service/invalid.java:343-370 | no error exactly when every extracted BIC matches the pattern; at most three errors, none a length error |
| Mt103FieldValidator.FindBic | trx-validation-service/invalid.java:430-447 | one tag's search gives the candidate of the line after the tag, or nothing when the tag is absent |
| Mt103FieldValidator.FormatErrorsAreNotLengthErrors | trx-validation-service/invalid.java:358-365 | the two format messages never read as a length message |
| Mt103FieldValidator.BicFormatErrorsEmpty | trx-validation-service/invalid.java:343-370 | no BIC error exactly when every extracted BIC matches the pattern |
| Mt103FieldValidator.ExtractedDates | trx-validation-service/invalid.java:453-469 | at most one date, the first six characters of field 32A |
| Mt103FieldValidator.IsValidDateCalendar | trx-validation-service/invalid.java:491-508 | on six digits isValidDate holds exactly for months 1..12 and days from 1 to the month's maximum, February allowing 29 whatever the year |
| Mt103FieldValidator.ValidateDateFormat | trx-validation-service/invalid.java:372-394 | no error exactly when field 32A has no date or six digits naming a calendar day; at most one error |
| Mt103FieldValidator.DateFormatErrorsEmpty | trx-validation-service/invalid.java:372-394 | no date error exactly when field 32A has no date or six digits naming a calendar day |
| Mt103FieldValidator.AmountErrorIffPattern | trx-validation-service/invalid.java:405-416 | an amount is reported exactly when it fails the amount pattern |
| Mt103FieldValidator.ValidateAmountFormat | trx-validation-service/invalid.java:396-422 | no error exactly when every amount extracted from field 32A matches the pattern; at most one error |
| Mt103FieldValidator.AmountFormatErrorsEmpty | trx-validation-service/invalid.java:396-422 | no amount error exactly when every extracted amount matches the pattern |
| Mt103StructureValidator.MessageStructureErrors | trx-validation-service/invalid.java:526-548 | a single null-or-empty error for missing content; otherwise one error per missing {1:, {2:, {3: block |
| Mt103StructureValidator.MessageStructureErrorsEmpty | trx-validation-service/invalid.java:526-548 | the structure check passes exactly a non-empty message holding the three header blocks |
| Mt103StructureValidator.MatchesTagSeparatorContains | trx-validation-service/invalid.java:562-571 | a line matching a tag followed by the separator contains that separator |
| Mt103StructureValidator.SemicolonLines | trx-validation-service/invalid.java:560-571 | the line loop reports exactly the lines where a tag is followed by ';' |
| Mt103StructureValidator.MissingColonLines | trx-validation-service/invalid.java:572-577 | the line loop reports exactly the lines that look like a tag without its colon |
| Mt103StructureValidator.ValidateFieldStructure | trx-validation-service/invalid.java:550-578 | the method computes the double-colon, semicolon and missing-colon errors in order |
| Mt103StructureValidator.FieldStructureErrorsEmpty | trx-validation-service/invalid.java:550-578 | no field-structure error exactly when there is no '::', no line misses its colon and, when ';' and ':' both occur, no tag is followed by ';' |
| Mt103StructureValidator.MessageCompletenessErrors | trx-validation-service/invalid.java:580-594 | no error exactly when the message holds {5: and its trimmed text ends with }; each error present exactly when its condition fails |
| Mt103StructureValidator.ControlCharErrorsEmpty | trx-validation-service/invalid.java:596-608 | no error exactly when no character is a control character other than tab, CR and LF; at most one error per character |
| Mt103StructureValidator.ControlCharErrorsNamed | trx-validation-service/invalid.java:596-608 | every error names a control character at its position, and every such character is reported |
| Mt103StructureValidator.ValidateCharacters | trx-validation-service/invalid.java:596-608 | the character loop computes exactly those errors |
| Mt103ValidationService.ValidateTransaction | trx-validation-service/invalid.java:635-680 | None for null content, where the BIC extraction throws; otherwise every error of the eight checks in order, and valid exactly when there is none |
| Mt103ValidationService.AllErrorsEmpty | trx-validation-service/invalid.java:635-680 | a message is valid exactly when each of the eight checks passes it |
| Mt103ValidationService.ValidMessageShape | trx-validation-service/invalid.java:635-680 | a valid message is non-empty, holds :20:, :23B:, :32A:, {1:, {2:, {3: and {5:, ends with } and has no control character |
| Mt103ValidationService.ValidMessageFields | trx-validation-service/invalid.java:635-680 | in a valid message every extracted BIC, date and amount passes its pattern and the date is a calendar day |
| Mt103ValidationService.EmptyMessageErrors | trx-validation-service/invalid.java:635-680 | the empty message gets exactly the two null-or-empty errors and the two truncation errors |
| Mt103ValidationService.ShortMessageNoFields | trx-validation-service/invalid.java:424-489 | a message shorter than every tag (the empty one included) yields no BIC, date or amount error |
| LenientFieldValidator.ContainsFieldMeaning | trx-validation-service/invalid.java:189-193 | looking for the field in its four spellings comes down to looking for the number followed by a colon |
| LenientFieldValidator.MandatoryFieldErrors | trx-validation-service/invalid.java:69-94 | a single null-or-empty error for null or blank content, otherwise the missing-field errors |
| LenientFieldValidator.MissingFieldErrorsMeaning | trx-validation-service/invalid.java:69-94 | no error exactly when 20:, 23B: and 32A: all occur; each field is reported exactly when its text is absent |
| LenientFieldValidator.StrictMandatoryImpliesLenient | trx-validation-service/invalid.java:69-94 | every message the strict mandatory check passes also passes the lenient one |
| LenientFieldValidator.NextFieldFrom | trx-validation-service/invalid.java:273-285 | the first colon followed by a digit at or after the start, or the end of the text |
| LenientFieldValidator.FindNextFieldOrEnd | trx-validation-service/invalid.java:273-285 | the scanning loop computes NextFieldFrom |
| LenientFieldValidator.FindFieldText | trx-validation-service/invalid.java:201-217 | the method finds the text of the field between its tag and the next field |
| LenientFieldValidator.BicOfField | trx-validation-service/invalid.java:203-215 | at most one candidate, of BIC shape |
| LenientFieldValidator.ExtractedBicsShaped | trx-validation-service/invalid.java:195-221 | every extracted BIC is 8 to 11 characters without a line break |
| LenientFieldValidator.ExtractBicFields | trx-validation-service/invalid.java:195-221 | the loop over the six tag spellings collects exactly their candidates |
| LenientFieldValidator.ValidateBicFormat | trx-validation-service/invalid.java:96-127 | the loop computes the lenient BIC errors |
| LenientFieldValidator.BicFormatErrorsMeaning | trx-validation-service/invalid.java:96-127 | the lenient BIC check reports exactly the extracted BICs that start with a digit, one digit error each |
| LenientFieldValidator.ExtractedDatesDigits | trx-validation-service/invalid.java:223-246 | every extracted date is six digits |
| LenientFieldValidator.ExtractDates | trx-validation-service/invalid.java:223-246 | the loop over :32A: and 32A: collects exactly their dates |
| LenientFieldValidator.ValidateDateFormat | trx-validation-service/invalid.java:129-157 | never an error: every extracted date already has six digits, so only warnings remain |
| LenientFieldValidator.ExtractedAmountsShape | trx-validation-service/invalid.java:248-271 | every extracted amount is non-empty and made of digits, commas and points |
| LenientFieldValidator.AmountPassesChecks | trx-validation-service/invalid.java:168-176 | such an amount is neither blank nor negative |
| LenientFieldValidator.ExtractAmounts | trx-validation-service/invalid.java:248-271 | the loop collects exactly the amounts of the 32A fields |
| LenientFieldValidator.ValidateAmountFormat | trx-validation-service/invalid.java:159-187 | never an error: every extracted amount is non-empty and unsigned, so only warnings remain |
| SimpleTransactionFilter.CheckFieldStructure | trx-validation-service/src/main/java/com/toufik/trxvalidationservice/service/SimpleTransactionFilterService.java:127-146 | the method returns the double-colon failure, else the first line's tag failure, as FieldStructureFailure |
| SimpleTransactionFilter.StreetLineLooksLikeTag | trx-validation-service/src/main/java/com/toufik/trxvalidationservice/service/SimpleTransactionFilterService.java:139-143 | a printable line of three digits, a space and more text is rejected as a tag without its colon |
| SimpleTransactionFilter.AddressLinesLookLikeTags | trx-validation-service/src/main/java/com/toufik/trxvalidationservice/service/SimpleTransactionFilterService.java:139-143 | every street line the generator's formatter writes into fields 50K and 59 fails the missing-colon check |
| SimpleTransactionFilter.AddressLineRejected | trx-validation-service/src/main/java/com/toufik/trxvalidationservice/service/SimpleTransactionFilterService.java:127-146 | a message holding such a line as one of its lines fails the field-structure check |
| SimpleTransactionFilter.LetterLinePasses | trx-validation-service/src/main/java/com/toufik/trxvalidationservice/service/SimpleTransactionFilterService.java:139-143 | a line that opens with a capital letter fails neither the semicolon nor the missing-colon test |
| SimpleTransactionFilter.CityLinePasses | trx-validation-service/src/main/java/com/toufik/trxvalidationservice/service/SimpleTransactionFilterService.java:127-146 | the city-and-country line the generator writes into fields 50K and 59 never fails the line check, unlike the street line above it |
| SimpleTransactionFilter.ContinuationLinesRejected | trx-validation-service/src/main/java/com/toufik/trxvalidationservice/service/SimpleTransactionFilterService.java:139-143 | the account line 10040000, the bank code 02008 and the street 456 Business Ave of fields 50K and 59 each fail the missing-colon check as written |
| SimpleTransactionFilter.CorrectedFieldStructureFailure | trx-validation-service/src/main/java/com/toufik/trxvalidationservice/service/SimpleTransactionFilterService.java:127-146 | with the missing-colon test confined to field tags (a tag missing its closing colon or its opening colon), a message passes exactly when it has no '::' and none of its lines fails the corrected line check |
| SimpleTransactionFilter.ContinuationLinePasses | trx-validation-service/src/main/java/com/toufik/trxvalidationservice/service/SimpleTransactionFilterService.java:139-143 | under the corrected check, a line that does not open a field, holds no ';' and no ':' among its first four characters passes, whatever digits it starts with |
| SimpleTransactionFilter.ContinuationLinesAccepted | trx-validation-service/src/main/java/com/toufik/trxvalidationservice/service/SimpleTransactionFilterService.java:139-143 | the corrected check accepts the three continuation lines the check as written rejects |
| SimpleTransactionFilter.CorrectedTagLines | trx-validation-service/src/main/java/com/toufik/trxvalidationservice/service/SimpleTransactionFilterService.java:139-143 | under the corrected check, a tag of two digits and an optional letter passes when followed by ':' and fails when followed by anything else |
| SimpleTransactionFilter.CorruptedTagLinesRejected | trx-generator-service/src/main/java/com/toufik/trxgeneratorservice/mt103trx/service/MT103MessageCorruptor.java:253-268 | the corrupted tag lines marked as missing a colon (`:20` + reference, `20:` + reference, `50K:/` + account, `:59/` + account) all fail the corrected check |
| SimpleTransactionFilter.CompletenessFailure | trx-validation-service/src/main/java/com/toufik/trxvalidationservice/service/SimpleTransactionFilterService.java:148-157 | no failure exactly when the message holds {5: and its trimmed text ends with } |
| SimpleTransactionFilter.FirstControlChar | trx-validation-service/src/main/java/com/toufik/trxvalidationservice/service/SimpleTransactionFilterService.java:159-169 | None exactly when no control character follows the start; otherwise the failure names one at its position |
| SimpleTransactionFilter.CheckInvalidCharacters | trx-validation-service/src/main/java/com/toufik/trxvalidationservice/service/SimpleTransactionFilterService.java:159-169 | the character loop returns the first control character's failure |
| SimpleTransactionFilter.SingleBicFailure | trx-validation-service/src/main/java/com/toufik/trxvalidationservice/service/SimpleTransactionFilterService.java:203-217 | no failure exactly when the BIC matches the pattern; the too-short and too-long messages by length |
| SimpleTransactionFilter.ValidateBicCodes | trx-validation-service/src/main/java/com/toufik/trxvalidationservice/service/SimpleTransactionFilterService.java:171-201 | the loop over 52A, 57A and 59 returns the first field's failure |
| SimpleTransactionFilter.BicFailureMeaning | trx-validation-service/src/main/java/com/toufik/trxvalidationservice/service/SimpleTransactionFilterService.java:171-201 | the BIC check passes exactly when each field is missing, has a candidate under four characters, or one that matches the pattern |
| SimpleTransactionFilter.DateStrFailureStrict | trx-validation-service/src/main/java/com/toufik/trxvalidationservice/service/SimpleTransactionFilterService.java:219-269 | the filter accepts exactly the dates the strict validator's isValidDate accepts |
| SimpleTransactionFilter.DateStrFailureMeaning | trx-validation-service/src/main/java/com/toufik/trxvalidationservice/service/SimpleTransactionFilterService.java:236-262 | a date passes exactly when it is six digits naming a calendar day, February 29th allowed every year |
| SimpleTransactionFilter.DateFailureMeaning | trx-validation-service/src/main/java/com/toufik/trxvalidationservice/service/SimpleTransactionFilterService.java:219-269 | the date check passes exactly when 32A is missing or opens with such a date |
| SimpleTransactionFilter.AmountFailureMeaning | trx-validation-service/src/main/java/com/toufik/trxvalidationservice/service/SimpleTransactionFilterService.java:271-318 | the amount check passes exactly when 32A is missing or its cleaned amount matches the amount pattern; more than one separator always fails |
| SimpleTransactionFilter.PatternSeparators | trx-validation-service/src/main/java/com/toufik/trxvalidationservice/service/SimpleTransactionFilterService.java:304-316 | a text matching the amount pattern holds at most one separator, so the separator check rejects nothing the pattern accepts |
| SimpleTransactionFilter.ValidateMt103 | trx-validation-service/src/main/java/com/toufik/trxvalidationservice/service/SimpleTransactionFilterService.java:67-105 | the method returns the first failing check's message in the source's order |
| SimpleTransactionFilter.ForwardedMessage | trx-validation-service/src/main/java/com/toufik/trxvalidationservice/service/SimpleTransactionFilterService.java:67-105 | a forwarded message is not blank, holds the three mandatory tags, the three header blocks and {5:, ends with }, has no '::', no rejected line and no control character |
| SimpleTransactionFilter.SimpleTransactionFilterService.Process | trx-validation-service/src/main/java/com/toufik/trxvalidationservice/service/SimpleTransactionFilterService.java:33-60 | every message is counted; a valid one that is sent is forwarded and counted valid, anything else counted as filtered |
| TransactionFilter.CleanContent | trx-validation-service/src/main/java/com/toufik/trxvalidationservice/service/TransactionFilterService.java:87 | the cleaned text has no whitespace character left |
| TransactionFilter.TrailerAccepted | trx-validation-service/src/main/java/com/toufik/trxvalidationservice/service/TransactionFilterService.java:115 | a trailer of {5:{MAC:, upper-case hex, }{CHK:, upper-case hex and }} on one line matches |
| TransactionFilter.TrailerShape | trx-validation-service/src/main/java/com/toufik/trxvalidationservice/service/TransactionFilterService.java:115 | any matching text ends with }} and holds {5: |
| TransactionFilter.FieldStructureFailure | trx-validation-service/src/main/java/com/toufik/trxvalidationservice/service/TransactionFilterService.java:138-151 | no failure exactly when there is no '::' and no trimmed line opens with a tag followed by ';' |
| TransactionFilter.CheckFieldStructure | trx-validation-service/src/main/java/com/toufik/trxvalidationservice/service/TransactionFilterService.java:138-151 | the line loop computes FieldStructureFailure |
| TransactionFilter.SingleBicFailure | trx-validation-service/src/main/java/com/toufik/trxvalidationservice/service/TransactionFilterService.java:183-191 | no failure exactly when the BIC matches the pattern; a wrong length is reported as such |
| TransactionFilter.ValidateBicCodes | trx-validation-service/src/main/java/com/toufik/trxvalidationservice/service/TransactionFilterService.java:153-181 | the loop over 52A and 57A returns the first field's failure |
| TransactionFilter.BicLineExists | trx-validation-service/src/main/java/com/toufik/trxvalidationservice/service/TransactionFilterService.java:163-165 | splitting a field body into lines always gives a first line |
| TransactionFilter.BicFailureMeaning | trx-validation-service/src/main/java/com/toufik/trxvalidationservice/service/TransactionFilterService.java:153-181 | the BIC check passes exactly when 52A and 57A are each missing or have a first line under eight characters or matching the pattern |
| TransactionFilter.DateFailureMeaning | trx-validation-service/src/main/java/com/toufik/trxvalidationservice/service/TransactionFilterService.java:193-227 | the date check passes exactly when 32A is missing or opens with six digits of month 1..12 and day 1..31 |
| TransactionFilter.DateLooserThanSimple | trx-validation-service/src/main/java/com/toufik/trxvalidationservice/service/TransactionFilterService.java:214-220 | every date the simple filter accepts passes here, and February 30th passes here while the simple filter rejects it |
| TransactionFilter.AmountFailureMeaning | trx-validation-service/src/main/java/com/toufik/trxvalidationservice/service/TransactionFilterService.java:229-261 | the amount check passes exactly when 32A is missing or its cleaned amount matches the pattern; whatever the simple filter accepts passes here |
| TransactionFilter.HeaderFailure | trx-validation-service/src/main/java/com/toufik/trxvalidationservice/service/TransactionFilterService.java:87-104 | no failure exactly when the cleaned text has all five blocks and both header patterns match; otherwise one of the three block messages |
| TransactionFilter.ValidateMt103 | trx-validation-service/src/main/java/com/toufik/trxvalidationservice/service/TransactionFilterService.java:81-136 | the method returns the first failing check's message in the source's order |
| TransactionFilter.ForwardedMessage | trx-validation-service/src/main/java/com/toufik/trxvalidationservice/service/TransactionFilterService.java:81-136 | a forwarded message is not blank, has all blocks, matching headers and trailer, ends with }} once cleaned, holds the mandatory tags and no '::' |
| TransactionFilter.FailureIsNotValidReason | trx-validation-service/src/main/java/com/toufik/trxvalidationservice/service/TransactionFilterService.java:27-49 | every failure message is longer than the reason "Valid", so stored reasons tell valid from invalid |
| TransactionFilter.TransactionFilterService.SaveTransaction | trx-validation-service/src/main/java/com/toufik/trxvalidationservice/service/TransactionFilterService.java:51-79 | the store gains the copy with verdict, reason and time, unless it fails |
| TransactionFilter.TransactionFilterService.Process | trx-validation-service/src/main/java/com/toufik/trxvalidationservice/service/TransactionFilterService.java:27-49 | a valid message is sent and saved as valid; an invalid one is saved with its reason and not sent; a failing send saves nothing |
| SwiftWriter.PiecesOfLines | trx-alert-service/src/main/java/com/toufik/trxalertservice/service/SwiftFileWriterService.java:92-110 | text written line by line splits back into those lines, followed by whatever comes after |
| SwiftWriter.AlertSection | trx-alert-service/src/main/java/com/toufik/trxalertservice/service/SwiftFileWriterService.java:104-108 | nothing for a null or empty list, else a count line and one line per alert in order; that the reader passes over every one of these lines is proved in SwiftRoundTrip.AlertSectionIgnored |
| SwiftWriter.Body | trx-alert-service/src/main/java/com/toufik/trxalertservice/service/SwiftFileWriterService.java:113-119 | the MT103 text when it is not blank, else the no-content comment, so the file's body is never blank; that non-blank text is written and read back as it is is proved in SwiftRoundTrip.BodyOfText |
| SwiftWriter.AppendTopLines | trx-alert-service/src/main/java/com/toufik/trxalertservice/service/SwiftFileWriterService.java:93-102 | the builder gains the nine comment lines of the header, each ended by a line feed |
| SwiftWriter.AppendAlertSection | trx-alert-service/src/main/java/com/toufik/trxalertservice/service/SwiftFileWriterService.java:104-108 | the builder gains exactly the alert section's lines |
| SwiftWriter.AppendHeader | trx-alert-service/src/main/java/com/toufik/trxalertservice/service/SwiftFileWriterService.java:92-111 | the builder gains exactly the header's lines |
| SwiftWriter.AppendMt103Content | trx-alert-service/src/main/java/com/toufik/trxalertservice/service/SwiftFileWriterService.java:113-119 | the builder gains exactly the body |
| SwiftWriter.GenerateFileContent | trx-alert-service/src/main/java/com/toufik/trxalertservice/service/SwiftFileWriterService.java:83-90 | the file holds the header's lines followed by the body |
| SwiftWriter.CreateFilePath | trx-alert-service/src/main/java/com/toufik/trxalertservice/service/SwiftFileWriterService.java:72-81 | the file goes under the output directory, in fraudulent exactly for a fraudulent result and in normal otherwise, named MT103_ and ending with the extension |
| SwiftReader.ParseAmountValue | trx-alert-service/src/main/java/com/toufik/trxalertservice/service/SwiftFileReaderService.java:145-156 | changes nothing but the amount and the currency, and changes them only to a parsed number and a currency; that the written amount line reads back as the transaction's amount and currency is proved in SwiftRoundTrip.AmountRoundTrip |
| SwiftReader.HeaderField | trx-alert-service/src/main/java/com/toufik/trxalertservice/service/SwiftFileReaderService.java:101-114 | a line with none of the five header prefixes is not a header field; a header field never touches the status |
| SwiftReader.ParseLayout | trx-alert-service/src/main/java/com/toufik/trxalertservice/service/SwiftFileReaderService.java:158-174 | a parsed timestamp is a real calendar instant of 26 or 19 characters, with whole microseconds, and no fraction in the short layout |
| SwiftReader.Assemble | trx-alert-service/src/main/java/com/toufik/trxalertservice/service/SwiftFileReaderService.java:158-174 | parsed numbers give a timestamp exactly when month, day, hour, minute and second are in range; a day past the month's end becomes its last day, and the microseconds become whole nanoseconds below one second |
| SwiftReader.ParseTimestamp | trx-alert-service/src/main/java/com/toufik/trxalertservice/service/SwiftFileReaderService.java:158-174 | the microsecond layout first, then the seconds layout, else the clock reading; which printed times read back as themselves is proved in TimestampRoundTrip.GeneratedAtRoundTrip |
| SwiftReader.HeaderPrefixIsComment | trx-alert-service/src/main/java/com/toufik/trxalertservice/service/SwiftFileReaderService.java:101-110 | every header prefix is a comment line |
| SwiftReader.SeparatorIsComment | trx-alert-service/src/main/java/com/toufik/trxalertservice/service/SwiftFileReaderService.java:92-123 | the separator line the writer emits is a comment but no header field |
| SwiftReader.ReadLine | trx-alert-service/src/main/java/com/toufik/trxalertservice/service/SwiftFileReaderService.java:92-123 | blank and other comment lines change nothing; the separator opens the MT103 section; inside it every other non-comment line is collected; the status is never touched |
| SwiftReader.HeaderLineEffect | trx-alert-service/src/main/java/com/toufik/trxalertservice/service/SwiftFileReaderService.java:101-114 | a header line updates the transaction through its field and nothing else |
| SwiftReader.ReadLines | trx-alert-service/src/main/java/com/toufik/trxalertservice/service/SwiftFileReaderService.java:92-123 | reading the lines one by one never touches the status |
| SwiftReader.ReadLinesAppend | trx-alert-service/src/main/java/com/toufik/trxalertservice/service/SwiftFileReaderService.java:92-123 | reading two runs of lines is reading the first, then the second from where it stopped |
| SwiftReader.IgnoredLines | trx-alert-service/src/main/java/com/toufik/trxalertservice/service/SwiftFileReaderService.java:92-123 | lines the loop passes over leave the state as it was |
| SwiftReader.ContinuationEnd | trx-alert-service/src/main/java/com/toufik/trxalertservice/service/SwiftFileReaderService.java:230 | the field's value runs to the end or to a line feed followed by a colon, and it takes in a further line exactly when a line feed and a character other than a colon follow |
| SwiftReader.FindMatch | trx-alert-service/src/main/java/com/toufik/trxalertservice/service/SwiftFileReaderService.java:229-236 | the first position at or after the start where the field code and its value match, or None when there is none |
| SwiftReader.FieldValue | trx-alert-service/src/main/java/com/toufik/trxalertservice/service/SwiftFileReaderService.java:229-236 | a value exactly when the code occurs with a value somewhere; which value is read is stated by FieldValueOfLine and FieldValueOfLines |
| SwiftReader.FieldValueOfLine | trx-alert-service/src/main/java/com/toufik/trxalertservice/service/SwiftFileReaderService.java:229-236 | a one-line value with no colon, followed by the end of the text or by the next field, is read back trimmed |
| SwiftReader.FieldValueOfLines | trx-alert-service/src/main/java/com/toufik/trxalertservice/service/SwiftFileReaderService.java:229-236 | a value with a continuation line not opening with a colon takes that line in, up to the next field, trimmed |
| SwiftReader.CleanAmountAsWritten | trx-alert-service/src/main/java/com/toufik/trxalertservice/service/SwiftFileReaderService.java:190 | only digits and points are kept |
| SwiftReader.CleanAmount | trx-alert-service/src/main/java/com/toufik/trxalertservice/service/SwiftFileReaderService.java:190 | the corrected cleaning keeps only digits and points, a decimal comma read as a point |
| SwiftReader.Apply32AWith | trx-alert-service/src/main/java/com/toufik/trxalertservice/service/SwiftFileReaderService.java:182-195 | a value of nine characters or fewer changes nothing; otherwise the currency from characters 7 to 9, and the amount when the cleaned rest parses; nothing else changes |
| SwiftReader.Bic8 | trx-alert-service/src/main/java/com/toufik/trxalertservice/service/SwiftFileReaderService.java:214-226 | present exactly for a value of more than eight characters, and then its first eight |
| SwiftReader.WithReference | trx-alert-service/src/main/java/com/toufik/trxalertservice/service/SwiftFileReaderService.java:181 | a field 20 value becomes the transaction identifier; without one the transaction is unchanged; nothing else is touched |
| SwiftReader.WithValueDate | trx-alert-service/src/main/java/com/toufik/trxalertservice/service/SwiftFileReaderService.java:182-195 | a field 32A value is handled as Apply32AWith states (currency from characters 7 to 9, the amount when it parses); without one the transaction is unchanged; only currency and amount are touched |
| SwiftReader.WithAccounts | trx-alert-service/src/main/java/com/toufik/trxalertservice/service/SwiftFileReaderService.java:198-213 | the accounts become the first lines, trimmed, of fields 50K and 59 where present, and stay otherwise; only the two accounts are touched |
| SwiftReader.WithInstitutions | trx-alert-service/src/main/java/com/toufik/trxalertservice/service/SwiftFileReaderService.java:214-226 | the BICs become the first eight characters of fields 52A and 57A where they are longer than eight, and stay otherwise; only the two BICs are touched |
| SwiftReader.FirstLineOfLines | trx-alert-service/src/main/java/com/toufik/trxalertservice/service/SwiftFileReaderService.java:200-204 | the account read from a multi-line value is its first line, trimmed |
| SwiftReader.ApplyFieldsWith | trx-alert-service/src/main/java/com/toufik/trxalertservice/service/SwiftFileReaderService.java:176-227 | each MT103 field found overrides what the header gave: the identifier from 20, the currency from 32A, the BICs from 52A and 57A; status, timestamp and bank names are never touched |
| SwiftReader.BodyFieldsWin | trx-alert-service/src/main/java/com/toufik/trxalertservice/service/SwiftFileReaderService.java:126-129 | in the event read from a file, the identifier is the MT103 text's field 20, the currency that of 32A and the BICs those of 52A and 57A whenever the text has them, whatever the header comments said |
| SwiftReader.FileNameId | trx-alert-service/src/main/java/com/toufik/trxalertservice/service/SwiftFileReaderService.java:240-247 | an identifier from the file name is non-empty and has no underscore; None exactly when the name has no MT103_ part with one |
| SwiftReader.WithDefaults | trx-alert-service/src/main/java/com/toufik/trxalertservice/service/SwiftFileReaderService.java:238-265 | a missing identifier comes from the file name, else UNKNOWN_ and the milliseconds; timestamp now, status drawn, amount zero, currency USD when missing; nothing else changes |
| SwiftReader.ReadFile | trx-alert-service/src/main/java/com/toufik/trxalertservice/service/SwiftFileReaderService.java:84-139 | the event always has an identifier, a timestamp, a status, an amount and a currency; the status is always the drawn one; MT103 text is never empty (amount read with the corrected cleaning, see Findings) |
| SwiftReader.ReadOneLine | trx-alert-service/src/main/java/com/toufik/trxalertservice/service/SwiftFileReaderService.java:92-123 | the loop body performs ReadLine on the builder and the flags |
| SwiftReader.ParseSwiftFile | trx-alert-service/src/main/java/com/toufik/trxalertservice/service/SwiftFileReaderService.java:84-139 | the method computes ReadFile (amount read with the corrected cleaning, see Findings) |
| SwiftRoundTrip.IgnoredComment | trx-alert-service/src/main/java/com/toufik/trxalertservice/service/SwiftFileReaderService.java:92-123 | a comment line whose fourth to sixth characters start no header prefix is passed over |
| SwiftRoundTrip.PlaceholderFileLines | trx-alert-service/src/main/java/com/toufik/trxalertservice/service/SwiftFileWriterService.java:83-119 | a file without MT103 text splits into its header lines and the no-content line |
| SwiftRoundTrip.HeaderLinesNoLineFeed | trx-alert-service/src/main/java/com/toufik/trxalertservice/service/SwiftFileWriterService.java:92-111 | when the transaction's texts are single lines, no header line holds a line feed |
| SwiftRoundTrip.AlertSectionIgnored | trx-alert-service/src/main/java/com/toufik/trxalertservice/service/SwiftFileReaderService.java:92-123 | every line of the alert section is passed over by the reader |
| SwiftRoundTrip.ReadTopLines | trx-alert-service/src/main/java/com/toufik/trxalertservice/service/SwiftFileReaderService.java:101-114 | reading the written top lines sets identifier, timestamp, amount and currency, and the two bank names, from the written values |
| SwiftRoundTrip.NullIsNotADecimal | trx-alert-service/src/main/java/com/toufik/trxalertservice/service/SwiftFileReaderService.java:148-152 | the text null is not a number, so a missing amount is not read back |
| SwiftRoundTrip.AmountValueSplit | trx-alert-service/src/main/java/com/toufik/trxalertservice/service/SwiftFileReaderService.java:147 | an amount and a currency without blanks split back into the two |
| SwiftRoundTrip.AmountRoundTrip | trx-alert-service/src/main/java/com/toufik/trxalertservice/service/SwiftFileReaderService.java:145-156 | a written amount in plain notation and its currency read back as they were |
| SwiftRoundTrip.NullAmountRoundTrip | trx-alert-service/src/main/java/com/toufik/trxalertservice/service/SwiftFileReaderService.java:145-156 | a written null amount leaves amount and currency unread |
| SwiftRoundTrip.ReadClosing | trx-alert-service/src/main/java/com/toufik/trxalertservice/service/SwiftFileReaderService.java:92-123 | the separator, the blank line and the no-content line only open the section |
| SwiftRoundTrip.ReadPlaceholderLines | trx-alert-service/src/main/java/com/toufik/trxalertservice/service/SwiftFileReaderService.java:92-123 | reading a file without MT103 text leaves the body empty |
| SwiftRoundTrip.PlaceholderTransaction | trx-alert-service/src/main/java/com/toufik/trxalertservice/service/SwiftFileReaderService.java:84-139 | reading a file without MT103 text gives the header's fields and no body |
| SwiftRoundTrip.PlaceholderRoundTrip | trx-alert-service/src/main/java/com/toufik/trxalertservice/service/SwiftFileReaderService.java:84-139 | a file without MT103 text reads back with no MT103 text, the written identifier, timestamp and bank names, the amount (zero when it was null), the currency (USD when the amount was null), the drawn status, and nothing else |
| SwiftRoundTrip.JoinPieces | trx-alert-service/src/main/java/com/toufik/trxalertservice/service/SwiftFileReaderService.java:117-122 | joining a text's lines with line feeds gives the text back |
| SwiftRoundTrip.CollectJoin | trx-alert-service/src/main/java/com/toufik/trxalertservice/service/SwiftFileReaderService.java:117-122 | inside the section, collecting body lines one by one gives them joined with line feeds |
| SwiftRoundTrip.BodyOfText | trx-alert-service/src/main/java/com/toufik/trxalertservice/service/SwiftFileWriterService.java:113-119 | a non-blank MT103 text is written as it is |
| SwiftRoundTrip.ContentFileLines | trx-alert-service/src/main/java/com/toufik/trxalertservice/service/SwiftFileWriterService.java:83-119 | a file with MT103 text splits into the header lines and the text's lines |
| SwiftRoundTrip.ReadContentLines | trx-alert-service/src/main/java/com/toufik/trxalertservice/service/SwiftFileReaderService.java:92-123 | reading those lines collects exactly the MT103 text |
| SwiftRoundTrip.ContentRoundTrip | trx-alert-service/src/main/java/com/toufik/trxalertservice/service/SwiftFileReaderService.java:84-139 | a file with MT103 text reads back with that very text and the transaction its header and fields give, completed by the defaults (under the corrected amount cleaning, see Findings) |
| Field32ARoundTrip.PlainAmountChars | trx-alert-service/src/main/java/com/toufik/trxalertservice/service/SwiftFileReaderService.java:190 | a non-negative amount in plain notation is printed with digits and at most one point |
| Field32ARoundTrip.CleanAmountRoundTrip | trx-alert-service/src/main/java/com/toufik/trxalertservice/service/SwiftFileReaderService.java:190 | with the corrected cleaning, the amount the formatter writes into field 32A parses back to itself |
| Field32ARoundTrip.Field32ARead | trx-alert-service/src/main/java/com/toufik/trxalertservice/service/SwiftFileReaderService.java:182-195 | with the corrected cleaning, reading field 32A gives back the written currency and amount |
| Field32ARoundTrip.CommaDroppedAsWritten | trx-alert-service/src/main/java/com/toufik/trxalertservice/service/SwiftFileReaderService.java:190 | as written, an amount with a fraction comes back with its comma dropped: its unscaled value at scale 0, strictly larger than the amount |
| TimestampRoundTrip.LayoutAccepts | trx-alert-service/src/main/java/com/toufik/trxalertservice/service/SwiftFileReaderService.java:158-174 | a text in the layout whose groups name a calendar instant parses to that instant |
| TimestampRoundTrip.ParseSeconds | trx-alert-service/src/main/java/com/toufik/trxalertservice/service/SwiftFileReaderService.java:167-168 | a seconds-layout text of a valid instant parses to it |
| TimestampRoundTrip.ParseMicros | trx-alert-service/src/main/java/com/toufik/trxalertservice/service/SwiftFileReaderService.java:162-163 | a microsecond-layout text of a valid instant parses to it |
| TimestampRoundTrip.Groups | trx-alert-service/src/main/java/com/toufik/trxalertservice/service/SwiftFileWriterService.java:94 | LocalDateTime.toString prints zero-padded year, month, day, hour, minute and second groups |
| TimestampRoundTrip.SecondsRoundTrip | trx-alert-service/src/main/java/com/toufik/trxalertservice/service/SwiftFileReaderService.java:158-174 | a generation time with non-zero seconds and no fraction reads back as itself |
| TimestampRoundTrip.MicrosRoundTrip | trx-alert-service/src/main/java/com/toufik/trxalertservice/service/SwiftFileReaderService.java:158-174 | a generation time with whole microseconds but not whole milliseconds reads back as itself |
| TimestampRoundTrip.TimeLength | trx-alert-service/src/main/java/com/toufik/trxalertservice/service/SwiftFileWriterService.java:94 | toString prints the time in 5, 8, 12, 15 or 18 characters by which parts are zero |
| TimestampRoundTrip.ClockFallback | trx-alert-service/src/main/java/com/toufik/trxalertservice/service/SwiftFileReaderService.java:158-174 | a generation time printed without seconds, with milliseconds or with nanoseconds fails both layouts and reads back as the clock reading |
| TimestampRoundTrip.GeneratedAtRoundTrip | trx-alert-service/src/main/java/com/toufik/trxalertservice/service/SwiftFileReaderService.java:158-174 | the written generation time reads back exactly in the two cases above, and as the clock reading in every other case |
| BigDec.CompareToIgnoresScale | trx-alert-service/src/main/java/com/toufik/trxalertservice/fraud/service/HighAmountDetectionService.java:29 | compareTo does not see a trailing zero: 1.50 and 1.5 compare alike with anything |
| BigDec.MultiplyMonotone | trx-alert-service/src/main/java/com/toufik/trxalertservice/fraud/service/HighAmountDetectionService.java:43-52 | multiplying by a positive rate keeps the order of two amounts |
| BigDec.ParseToString | trx-alert-service/src/main/java/com/toufik/trxalertservice/service/SwiftFileReaderService.java:150 | new BigDecimal(s) reads back what toString prints in plain notation, scale included |
| JavaString.JavaRem | trx-generator-service/src/main/java/com/toufik/trxgeneratorservice/mt103trx/service/BankDataService.java:95 | Java's % takes the dividend's sign and stays below the divisor in magnitude |
| JavaString.FormatZeroPadded | trx-generator-service/src/main/java/com/toufik/trxgeneratorservice/mt103trx/service/BankDataService.java:96 | %0nd prints a non-negative number as digits padded to the width, a negative one with a leading minus |
| Clock.FormatYyMmDd | trx-generator-service/src/main/java/com/toufik/trxgeneratorservice/mt103trx/service/MT103MessageFormatter.java:69-71 | the yyMMdd date of field 32A is six digits: the year of era modulo 100, the month and the day |

## Left out

- Kafka consumers and producers, MongoDB and JPA repositories, REST controllers, logging and the file system: the model starts where a message or a file's text has been received and stops where it is handed on; `Files.write`, directory creation and listing are not modelled.
- `SwiftFileReaderService.readAllSwiftFiles` and the scheduled tasks: they walk directories and call the per-file parser, which is modelled as `SwiftReader.ParseSwiftFile`.
- Randomness, the clock and UUIDs are parameters: bank and digit draws, address lines, MAC and checksum characters, the fraud scenario draw, the status draw, `LocalDateTime.now()`, `System.currentTimeMillis()` and `String.hashCode`.
- `FraudMT103MessageFormatter.isRoundAmount` works on a `double` remainder; its answer is a boolean parameter of the fraud formatter.
- `RoundAmountPatternDetector` tests amounts with `double` arithmetic and is not part of this model; the detector list is a parameter, so it can be any of the modelled detectors in any order.
- `FraudMapper.toDetailedReport` formats a free-text report and is not part of this model.
- The alert service's own `model/Transaction.java` is not among the files read; its fields are taken from the generator's `Transaction` and from how the services use it.
- The stored record of `TransactionFilterService` uses `isValid`, `validationReason` and `processedAt`, which the shipped `Transaction` class lacks; they are modelled as the service's code uses them.
- `TransactionValidationService`, `DebugTransactionService` and `TransactionFileService` are not part of this model.
- The lenient validator's `isBasicValidDate` is only reached for six-digit dates and only adds warnings; warnings are not modelled.
- `TransactionFilterService.process` dereferences the event's transaction before validating it; a null transaction (a `NullPointerException`) is outside the model.
- Character classes are ASCII: `toUpperCase`, `Character.isLetter`, `Character.isDigit` (the lenient validator's field scan, `JavaString.IsDigit`) and `getNumericValue` follow Java only on ASCII characters, and `Integer.parseInt` (`BankData.ParseInt`) accepts only ASCII digits where Java also accepts other Unicode decimal digits, such as Arabic-Indic ones.
- Strings are sequences of Unicode characters, while a Java string is a sequence of UTF-16 code units. So lengths, positions and substrings follow the source only for text with no character outside the Basic Multilingual Plane: `truncateToLength`, the eleven-character cut of a BIC line and the positions in the control-character messages. On such a character, for example an emoji, the source counts two units and may split the pair; the model counts one character.
- `toLowerCase` in the keyword detectors lower-cases ASCII letters only; Java lower-cases all of Unicode, so a text such as `STA` + Kelvin sign + `ING` matches the keyword `staking` in the source but not in the model.
- The clock is read once per run: every alert of a detection run or an engine run and the result's detection time share the one reading `now`. The source calls `LocalDateTime.now()` again for each alert (AbstractFraudDetector.java:29, FraudDetectionEngine.java:69) and for the result (FraudDetectionService.java:45), so its alert times can differ from each other and precede the detection time. `FraudDetectors.AlertShape` and `FraudEngine.EngineAlertsAreHigh` state the shared reading.
- BankData.NeededLength: `ibanLength - 4 - bankCode.length()` is computed on unbounded integers; Java's `int` subtraction wraps for a declared length within a dozen of Integer.MIN_VALUE, which the CSV parser accepts, and then asks for an account part of about two billion digits.
- `TransactionHistory` synchronization, object identity and the structuring service's scheduled cleanup executor are not modelled; the cleanup is a method that is called.
- The structuring window's total amount is only written to the log and is not modelled.
- Structuring.StructuringDetectionService.CleanupOldRecords: when some record has a null timestamp the source throws part-way through the accounts; the model leaves every history unchanged in that case instead of the accounts already pruned.
- The `additionalData` map of alerts and the `metadata` of results are not modelled.
- Timestamp parsing covers the two layouts for years 1 to 9999; `24:00`, signed or wider years and the resolver's other leniencies are not modelled.
- MongoDB truncates stored times to milliseconds; stored entities keep the full value.
- The `AtomicLong` counters of the filter services are unbounded integers.
- `BaseTransactionFactory.generateIBANForBank` catches exceptions and returns null; the modelled IBAN computation cannot fail, so that path does not arise.
- `InvalidScenarioSelector` draws with `double` weights and is not part of this model.
- SwiftReader.ReadFile: the :32A: amount is read with the corrected cleaning `SwiftReader.CleanAmount`, which keeps the decimal comma, rather than `[^0-9.]` of SwiftFileReaderService.java:190; what the code as written reads is `SwiftReader.CleanAmountAsWritten`, and `Field32ARoundTrip.CommaDroppedAsWritten` shows the amount it loses (see Findings).
- SwiftReader.ParseSwiftFile: computes `SwiftReader.ReadFile`, so its amount is likewise the corrected reading, not the one of SwiftFileReaderService.java:190.
- SwiftRoundTrip.ContentRoundTrip: the amount comes back as written only under the corrected cleaning; with the code as written a fractional amount loses its comma (see Findings).
- BankData.Iban: the account part is the corrected `BankData.PadAccount`; the code as written (`BankData.PadAccountAsWritten`) gives `-2147483648` for a hash of `Integer.MIN_VALUE` (`BankData.IbanAsWrittenMinValue`) and agrees with it on every other hash (`BankData.PadAccountAgrees`).
- BankData.BankDataService.GenerateIban: returns `BankData.Iban`, so it shares the corrected account part and differs from the code as written only for a hash of `Integer.MIN_VALUE`.
- TransactionFactory.BaseTransaction: its IBANs are `BankData.Iban`, with the corrected account part.
- TransactionFactory.BaseTransactionFactory.CreateBaseTransaction: its IBANs are `BankData.Iban`, with the corrected account part.
- SimpleTransactionFilter.ValidateMt103: keeps the field-structure check as written, which rejects continuation lines that start with two digits (see Findings); the corrected check `SimpleTransactionFilter.CorrectedFieldStructureFailure` stands beside it and the filter's verdict does not use it.

## Findings

| source | as written | input that shows it | evidently intended | confidence | as-written member | corrected member |
|---|---|---|---|---|---|---|
| trx-alert-service/src/main/java/com/toufik/trxalertservice/service/SwiftFileReaderService.java:190 | the :32A: amount is cleaned with `[^0-9.]`, which deletes the decimal comma the formatter writes | amount 588.4, written as `588,4` in field 32A, is read back as 5884 | keep the comma as the decimal separator, so the amount reads back as written | not executed | Field32ARoundTrip.CommaDroppedAsWritten | Field32ARoundTrip.CleanAmountRoundTrip |
| trx-generator-service/src/main/java/com/toufik/trxgeneratorservice/mt103trx/service/BankDataService.java:95 | `Math.abs(accountNumber.hashCode())` stays negative for `Integer.MIN_VALUE`, so the account part is `-2147483648` | a German bank (22-character IBANs) and the account number `polygenelubricants`, whose hash is `Integer.MIN_VALUE` | a non-negative account part of the needed width, so the IBAN has the declared length | not executed | BankData.IbanAsWrittenMinValue | BankData.PadAccount |
| trx-validation-service/src/main/java/com/toufik/trxvalidationservice/service/SimpleTransactionFilterService.java:141 | `^[0-9]{2}[A-Z]?[^:].*` has no leading colon, so every trimmed line that starts with two digits is taken for a field tag with its colon missing | the continuation lines `10040000`, `02008` and `456 Business Ave` of the valid message in SimpleTransactionFilterServiceTest.java:57-81 are each rejected, so that message fails | test for a missing colon only on lines that open a field (`:`, two digits, an optional letter) and on tags that lost their opening colon (two digits, an optional letter, `:`), so the corruptor's marked lines are still rejected | not executed | SimpleTransactionFilter.ContinuationLinesRejected | SimpleTransactionFilter.ContinuationLinesAccepted |
