/**
 * The alert service's transaction store: saveTransaction copies an event's transaction
 * into a new entity, marks it fraudulent when the rule engine raised alerts, lists one
 * "rule: description" reason per alert and hands it to the repository; the queries read
 * the repository back. The repository is a sequence of documents in insertion order; the
 * identifier it assigns and the clock reading are parameters.
 */
module TransactionStore {
  import opened Wrappers
  import opened BigDec
  import opened Clock
  import opened AlertModel
  import opened FraudEngine

  datatype TransactionEntity = TransactionEntity(
    id: Option<string>,
    transactionId: Option<string>,
    fromAccount: Option<string>,
    toAccount: Option<string>,
    amount: Option<BigDecimal>,
    currency: Option<string>,
    fromBankSwift: Option<string>,
    toBankSwift: Option<string>,
    fromBankName: Option<string>,
    toBankName: Option<string>,
    timestamp: Option<LocalDateTime>,
    status: Option<string>,
    fromIBAN: Option<string>,
    toIBAN: Option<string>,
    fromCountryCode: Option<string>,
    toCountryCode: Option<string>,
    mt103Content: Option<string>,
    fraudulent: bool,
    fraudReasons: Option<seq<string>>,
    processedAt: Option<LocalDateTime>)

  /** `new TransactionEntity()`: every reference null, not fraudulent. */
  const NewEntity: TransactionEntity :=
    TransactionEntity(None, None, None, None, None, None, None, None, None, None, None, None, None, None, None, None,
      None, false, None, None)

  /** The transaction an entity holds. */
  function TransactionOf(e: TransactionEntity): Transaction {
    Transaction(e.transactionId, e.fromAccount, e.toAccount, e.amount, e.currency, e.fromBankSwift, e.toBankSwift,
      e.fromBankName, e.toBankName, e.timestamp, e.status, e.fromIBAN, e.toIBAN, e.fromCountryCode, e.toCountryCode)
  }

  /** One reason per alert: the rule's name, a colon and its description, in order. */
  function FraudReasons(alerts: seq<RuleAlert>): (r: seq<string>)
    ensures |r| == |alerts|
    ensures forall j :: 0 <= j < |alerts| ==> r[j] == alerts[j].ruleName + ": " + alerts[j].description
  {
    seq(|alerts|, j requires 0 <= j < |alerts| => alerts[j].ruleName + ": " + alerts[j].description)
  }

  /** Reading a reason back: the text before its first colon and the text after the ": "
      that follows it; None when there is no colon or no blank after it. */
  function SplitReason(reason: string): Option<(string, string)> {
    if reason == [] then None
    else if reason[0] == ':' then
      if |reason| >= 2 && reason[1] == ' ' then Some(([], reason[2..])) else None
    else
      match SplitReason(reason[1..])
      case None => None
      case Some(parts) => Some(([reason[0]] + parts.0, parts.1))
  }

  /** A reason reads back as its rule's name and description whenever the name holds no
      colon, whatever the description holds. */
  lemma {:induction false} SplitReasonRoundTrip(ruleName: string, description: string)
    requires ':' !in ruleName
    ensures SplitReason(ruleName + ": " + description) == Some((ruleName, description))
  {
    var reason := ruleName + ": " + description;
    if ruleName == [] {
      assert reason == ": " + description;
    } else {
      assert reason[0] == ruleName[0] && reason[1..] == ruleName[1..] + ": " + description;
      SplitReasonRoundTrip(ruleName[1..], description);
      assert [ruleName[0]] + ruleName[1..] == ruleName;
    }
  }

  /** Every reason of a list reads back as its alert's rule name and description. */
  lemma FraudReasonsReadBack(alerts: seq<RuleAlert>)
    requires forall j :: 0 <= j < |alerts| ==> ':' !in alerts[j].ruleName
    ensures forall j :: 0 <= j < |alerts| ==>
      SplitReason(FraudReasons(alerts)[j]) == Some((alerts[j].ruleName, alerts[j].description))
  {
    forall j | 0 <= j < |alerts|
      ensures SplitReason(FraudReasons(alerts)[j]) == Some((alerts[j].ruleName, alerts[j].description))
    {
      SplitReasonRoundTrip(alerts[j].ruleName, alerts[j].description);
    }
  }

  /** The entity saveTransaction builds before the repository assigns an identifier: the
      event's transaction and MT103 text unchanged, fraudulent exactly when there are
      alerts, a reason per alert, and the processing time. */
  function EntityFor(event: TransactionWithMt103Event, alerts: seq<RuleAlert>, now: LocalDateTime): (r: TransactionEntity)
    ensures TransactionOf(r) == event.transaction
    ensures r.id == None && r.mt103Content == event.mt103Content
    ensures r.fraudulent <==> alerts != []
    ensures r.fraudReasons == Some(FraudReasons(alerts)) && r.processedAt == Some(now)
  {
    var t := event.transaction;
    TransactionEntity(None, t.transactionId, t.fromAccount, t.toAccount, t.amount, t.currency, t.fromBankSwift,
      t.toBankSwift, t.fromBankName, t.toBankName, t.timestamp, t.status, t.fromIBAN, t.toIBAN, t.fromCountryCode,
      t.toCountryCode, event.mt103Content, alerts != [], Some(FraudReasons(alerts)), Some(now))
  }

  /** The documents of `docs` with the given fraudulent flag, in order. */
  function WithFlag(docs: seq<TransactionEntity>, fraudulent: bool): (r: seq<TransactionEntity>)
    ensures |r| <= |docs|
    ensures forall j :: 0 <= j < |r| ==> r[j] in docs && r[j].fraudulent == fraudulent
    ensures forall i :: 0 <= i < |docs| && docs[i].fraudulent == fraudulent ==> docs[i] in r
  {
    if docs == [] then []
    else (if docs[0].fraudulent == fraudulent then [docs[0]] else []) + WithFlag(docs[1..], fraudulent)
  }

  /** The query {fraudulent: true, timestamp: {$gte: start, $lte: end}}: a document without
      a timestamp never matches. */
  predicate FraudulentBetween(e: TransactionEntity, start: LocalDateTime, end: LocalDateTime) {
    e.fraudulent && e.timestamp.Some?
    && EpochNanos(start) <= EpochNanos(e.timestamp.value) <= EpochNanos(end)
  }

  function FilterBetween(docs: seq<TransactionEntity>, start: LocalDateTime, end: LocalDateTime): (r: seq<TransactionEntity>)
    ensures |r| <= |docs|
    ensures forall j :: 0 <= j < |r| ==> r[j] in docs && FraudulentBetween(r[j], start, end)
    ensures forall i :: 0 <= i < |docs| && FraudulentBetween(docs[i], start, end) ==> docs[i] in r
  {
    if docs == [] then []
    else (if FraudulentBetween(docs[0], start, end) then [docs[0]] else []) + FilterBetween(docs[1..], start, end)
  }

  lemma {:induction false} WithFlagAppend(docs: seq<TransactionEntity>, e: TransactionEntity, fraudulent: bool)
    ensures WithFlag(docs + [e], fraudulent) == WithFlag(docs, fraudulent) + (if e.fraudulent == fraudulent then [e] else [])
  {
    if docs == [] {
      assert [e][1..] == [];
    } else {
      assert (docs + [e])[1..] == docs[1..] + [e];
      WithFlagAppend(docs[1..], e, fraudulent);
    }
  }

  class TransactionService {
    /** The documents the repository holds, in insertion order. */
    var repository: seq<TransactionEntity>

    constructor()
      ensures repository == []
    {
      repository := [];
    }

    /** saveTransaction: builds the entity field by field, saves it under the identifier
        the repository assigns, and returns the saved document. */
    method SaveTransaction(event: TransactionWithMt103Event, fraudAlerts: seq<RuleAlert>, now: LocalDateTime,
                           assignedId: string) returns (saved: TransactionEntity)
      modifies this
      ensures saved == EntityFor(event, fraudAlerts, now).(id := Some(assignedId))
      ensures repository == old(repository) + [saved]
    {
      var t := event.transaction;
      var entity := NewEntity;
      entity := entity.(transactionId := t.transactionId, fromAccount := t.fromAccount, toAccount := t.toAccount);
      entity := entity.(amount := t.amount, currency := t.currency);
      entity := entity.(fromBankSwift := t.fromBankSwift, toBankSwift := t.toBankSwift);
      entity := entity.(fromBankName := t.fromBankName, toBankName := t.toBankName);
      entity := entity.(timestamp := t.timestamp, status := t.status);
      entity := entity.(fromIBAN := t.fromIBAN, toIBAN := t.toIBAN);
      entity := entity.(fromCountryCode := t.fromCountryCode, toCountryCode := t.toCountryCode);
      entity := entity.(mt103Content := event.mt103Content);
      entity := entity.(fraudulent := fraudAlerts != []);
      entity := entity.(fraudReasons := Some(FraudReasons(fraudAlerts)));
      entity := entity.(processedAt := Some(now));
      saved := entity.(id := Some(assignedId));
      repository := repository + [saved];
    }

    /** getAllTransactions. */
    function AllTransactions(): seq<TransactionEntity>
      reads this
    {
      repository
    }

    /** getFraudulentTransactions: findByFraudulent(true). */
    function FraudulentTransactions(): (r: seq<TransactionEntity>)
      reads this
      ensures forall j :: 0 <= j < |r| ==> r[j] in repository && r[j].fraudulent
      ensures forall i :: 0 <= i < |repository| && repository[i].fraudulent ==> repository[i] in r
    {
      WithFlag(repository, true)
    }

    /** getFraudulentTransactionsBetween. */
    function FraudulentTransactionsBetween(start: LocalDateTime, end: LocalDateTime): (r: seq<TransactionEntity>)
      reads this
      ensures forall j :: 0 <= j < |r| ==> r[j] in repository && FraudulentBetween(r[j], start, end)
      ensures forall i :: 0 <= i < |repository| && FraudulentBetween(repository[i], start, end) ==> repository[i] in r
    {
      FilterBetween(repository, start, end)
    }
  }

  /** Saving an event whose rules raised alerts adds it to the fraudulent list; saving one
      without alerts leaves that list as it was. */
  lemma SaveExtendsFraudulent(before: seq<TransactionEntity>, event: TransactionWithMt103Event, alerts: seq<RuleAlert>,
                              now: LocalDateTime, assignedId: string)
    ensures var saved := EntityFor(event, alerts, now).(id := Some(assignedId));
      WithFlag(before + [saved], true) == WithFlag(before, true) + (if alerts != [] then [saved] else [])
  {
    WithFlagAppend(before, EntityFor(event, alerts, now).(id := Some(assignedId)), true);
  }
}
