/**
 * The structuring rule: it keeps, per source account, the history of recent small
 * transactions (below 1000.00) and calls a transaction suspicious once its account has
 * five or more of them within the last 60 minutes. A periodic cleanup drops records older
 * than two hours and accounts left without records. The histories live in one map that
 * each call replaces; the clock reading of the cleanup is a parameter.
 */
module Structuring {
  import opened Wrappers
  import opened BigDec
  import opened Clock
  import opened AlertModel
  import Engine = FraudEngine

  const StructuringThreshold: BigDecimal := BigDecimal(100000, 2)
  const MaxSmallTransactions: nat := 5
  const TimeWindowMinutes: nat := 60
  /** Records are kept for two hours. */
  const RetentionMinutes: nat := 120

  const RuleName: string := "STRUCTURING_DETECTION"
  /** getDescription, with the mis-decoded euro sign its source file holds. */
  const RuleDescription: string :=
    "Detects multiple small transactions under \U{00E2}\U{201A}\U{00AC}1000 " + "within short time period"

  /** A stored record; the timestamp is whatever the transaction carried, null included. */
  datatype TransactionRecord = TransactionRecord(timestamp: Option<LocalDateTime>, amount: BigDecimal)

  type Histories = map<string, seq<TransactionRecord>>

  /** isAfter(windowStart) || isEqual(windowStart), windowStart = currentTime minus the
      window. */
  predicate InWindow(ts: LocalDateTime, currentTime: LocalDateTime, windowMinutes: nat) {
    NotBeforeMinutesAgo(ts, currentTime, windowMinutes)
  }

  /** getTransactionCountInWindow: the number of records in the window; the stream throws
      on a record whose timestamp is null. */
  function CountInWindow(records: seq<TransactionRecord>, currentTime: LocalDateTime, windowMinutes: nat): (r: Option<nat>)
    ensures r.None? <==> exists i :: 0 <= i < |records| && records[i].timestamp.None?
    ensures r.Some? ==> r.value <= |records|
  {
    if records == [] then Some(0)
    else
      var rest := CountInWindow(records[1..], currentTime, windowMinutes);
      assert forall i :: 1 <= i < |records| ==> records[i] == records[1..][i - 1];
      match records[0].timestamp
      case None => None
      case Some(ts) =>
        if rest.None? then None
        else Some(rest.value + if InWindow(ts, currentTime, windowMinutes) then 1 else 0)
  }

  /** What isSuspicious does to the histories, and what it answers. */
  datatype CheckOutcome = CheckOutcome(histories: Histories, suspicious: Option<bool>)

  /** isSuspicious as a function of the histories: a null amount throws; an amount of
      1000.00 or more is not suspicious and leaves the histories alone; a null account
      throws in computeIfAbsent; otherwise the record is appended to the account's history
      and the answer is whether the history now holds five or more records in the 60
      minutes up to the transaction's time (a null timestamp throws after the append). */
  function Check(histories: Histories, t: Transaction): CheckOutcome {
    if t.amount.None? then CheckOutcome(histories, None)
    else if CompareTo(t.amount.value, StructuringThreshold) >= 0 then CheckOutcome(histories, Some(false))
    else if t.fromAccount.None? then CheckOutcome(histories, None)
    else
      var account := t.fromAccount.value;
      var history := (if account in histories then histories[account] else []) + [TransactionRecord(t.timestamp, t.amount.value)];
      var updated := histories[account := history];
      if t.timestamp.None? then CheckOutcome(updated, None)
      else
        var count := CountInWindow(history, t.timestamp.value, TimeWindowMinutes);
        CheckOutcome(updated, if count.None? then None else Some(count.value >= MaxSmallTransactions))
  }

  /** removeOldTransactions: the records not before the cutoff, in order. */
  function Retained(records: seq<TransactionRecord>, now: LocalDateTime): (r: seq<TransactionRecord>)
    requires forall i :: 0 <= i < |records| ==> records[i].timestamp.Some?
    ensures |r| <= |records|
    ensures forall j :: 0 <= j < |r| ==> r[j] in records && InWindow(r[j].timestamp.value, now, RetentionMinutes)
    ensures forall i :: 0 <= i < |records| && InWindow(records[i].timestamp.value, now, RetentionMinutes) ==> records[i] in r
  {
    if records == [] then []
    else
      var rest := Retained(records[1..], now);
      assert forall i :: 1 <= i < |records| ==> records[i] == records[1..][i - 1];
      if InWindow(records[0].timestamp.value, now, RetentionMinutes) then [records[0]] + rest else rest
  }

  /** Pruning two stretches of records one after the other keeps the first stretch's
      survivors followed by the second's: the pruning keeps the records' order. */
  lemma {:induction false} RetainedAppend(a: seq<TransactionRecord>, b: seq<TransactionRecord>, now: LocalDateTime)
    requires forall i :: 0 <= i < |a| ==> a[i].timestamp.Some?
    requires forall i :: 0 <= i < |b| ==> b[i].timestamp.Some?
    ensures forall i :: 0 <= i < |a + b| ==> (a + b)[i].timestamp.Some?
    ensures Retained(a + b, now) == Retained(a, now) + Retained(b, now)
  {
    assert forall i :: 0 <= i < |a + b| ==> (a + b)[i] == if i < |a| then a[i] else b[i - |a|];
    if a == [] {
      assert a + b == b;
    } else {
      var tail := a[1..];
      assert (a + b)[0] == a[0] && (a + b)[1..] == tail + b;
      RetainedAppend(tail, b, now);
      if InWindow(a[0].timestamp.value, now, RetentionMinutes) {
        assert [a[0]] + (Retained(tail, now) + Retained(b, now)) == [a[0]] + Retained(tail, now) + Retained(b, now);
      }
    }
  }

  /** One more record is kept, after all the earlier survivors, exactly when it lies
      within the retention period. */
  lemma RetainedSnoc(records: seq<TransactionRecord>, record: TransactionRecord, now: LocalDateTime)
    requires forall i :: 0 <= i < |records| ==> records[i].timestamp.Some?
    requires record.timestamp.Some?
    ensures forall i :: 0 <= i < |records + [record]| ==> (records + [record])[i].timestamp.Some?
    ensures Retained(records + [record], now) ==
      Retained(records, now) + (if InWindow(record.timestamp.value, now, RetentionMinutes) then [record] else [])
  {
    RetainedAppend(records, [record], now);
    assert [record][1..] == [];
  }

  /** Every record of every history has a timestamp. */
  predicate AllTimed(histories: Histories) {
    forall a :: a in histories ==> forall i :: 0 <= i < |histories[a]| ==> histories[a][i].timestamp.Some?
  }

  /** cleanupOldRecords: each history pruned to the last two hours, then the accounts whose
      history became empty removed. */
  function Cleaned(histories: Histories, now: LocalDateTime): (r: Histories)
    requires AllTimed(histories)
    ensures forall a :: a in r <==> a in histories && Retained(histories[a], now) != []
    ensures forall a :: a in r ==> r[a] == Retained(histories[a], now)
  {
    map a | a in histories && Retained(histories[a], now) != [] :: Retained(histories[a], now)
  }

  /** The rule's state: the history of small transactions per source account. */
  class StructuringDetectionService {
    var accountTransactions: Histories

    constructor ()
      ensures accountTransactions == map[]
    {
      accountTransactions := map[];
    }

    /** isSuspicious. */
    method IsSuspicious(event: TransactionWithMt103Event) returns (suspicious: Option<bool>)
      modifies this
      ensures accountTransactions == Check(old(accountTransactions), event.transaction).histories
      ensures suspicious == Check(old(accountTransactions), event.transaction).suspicious
    {
      var t := event.transaction;
      if t.amount.None? {
        return None;
      }
      var amount := t.amount.value;
      if CompareTo(amount, StructuringThreshold) >= 0 {
        return Some(false);
      }
      if t.fromAccount.None? {
        return None;
      }
      var account := t.fromAccount.value;
      var history := if account in accountTransactions then accountTransactions[account] else [];
      history := history + [TransactionRecord(t.timestamp, amount)];
      accountTransactions := accountTransactions[account := history];
      if t.timestamp.None? {
        return None;
      }
      var count := CountInWindow(history, t.timestamp.value, TimeWindowMinutes);
      if count.None? {
        return None;
      }
      suspicious := Some(count.value >= MaxSmallTransactions);
    }

    /** cleanupOldRecords, with the clock reading as a parameter. Returns false, changing
        nothing, when some record has a null timestamp (the source throws there). */
    method CleanupOldRecords(now: LocalDateTime) returns (completed: bool)
      modifies this
      ensures completed <==> AllTimed(old(accountTransactions))
      ensures completed ==> accountTransactions == Cleaned(old(accountTransactions), now)
      ensures !completed ==> accountTransactions == old(accountTransactions)
    {
      if !AllTimed(accountTransactions) {
        return false;
      }
      accountTransactions := Cleaned(accountTransactions, now);
      return true;
    }
  }

  // ---------------------------------------------------------------------------
  // Properties
  // ---------------------------------------------------------------------------

  /** Appending a record adds one to the count when it lies in the window. */
  lemma {:induction false} CountAppend(records: seq<TransactionRecord>, rec: TransactionRecord, currentTime: LocalDateTime, windowMinutes: nat)
    requires rec.timestamp.Some?
    ensures CountInWindow(records + [rec], currentTime, windowMinutes) ==
      if CountInWindow(records, currentTime, windowMinutes).None? then None
      else Some(CountInWindow(records, currentTime, windowMinutes).value
                + if InWindow(rec.timestamp.value, currentTime, windowMinutes) then 1 else 0)
  {
    if records == [] {
      assert [rec][1..] == [];
    } else {
      assert (records + [rec])[1..] == records[1..] + [rec];
      CountAppend(records[1..], rec, currentTime, windowMinutes);
    }
  }

  /** Amounts of 1000.00 and more, null amounts and null accounts never touch the
      histories; only the first of these answers "not suspicious", the others throw. */
  lemma CheckLeavesHistoriesAlone(histories: Histories, t: Transaction)
    ensures t.amount.None? ==> Check(histories, t) == CheckOutcome(histories, None)
    ensures t.amount.Some? && AtLeast(t.amount.value, BigDecimal(1000, 0)) ==> Check(histories, t) == CheckOutcome(histories, Some(false))
    ensures t.amount.Some? && Less(t.amount.value, BigDecimal(1000, 0)) && t.fromAccount.None? ==>
      Check(histories, t) == CheckOutcome(histories, None)
  {
    if t.amount.Some? {
      CompareToIgnoresScale(1000, 0, t.amount.value);
      CompareToIgnoresScale(10000, 1, t.amount.value);
    }
  }

  /** A small amount from a known account appends exactly one record, carrying the
      transaction's timestamp and amount, to that account's history; every other account
      keeps its history. */
  lemma CheckAppendsOneRecord(histories: Histories, t: Transaction)
    requires t.amount.Some? && Less(t.amount.value, StructuringThreshold) && t.fromAccount.Some?
    ensures var h := Check(histories, t).histories;
      var account := t.fromAccount.value;
      h.Keys == histories.Keys + {account}
      && h[account] == (if account in histories then histories[account] else []) + [TransactionRecord(t.timestamp, t.amount.value)]
      && forall a :: a in histories && a != account ==> h[a] == histories[a]
  {
  }

  /** With a timestamp present and no untimed record in the account's history, the
      transaction is suspicious exactly when at least four earlier records of the account
      fall in the 60 minutes up to its time: the transaction counts itself. */
  lemma SuspiciousIffFourEarlier(histories: Histories, t: Transaction)
    requires t.amount.Some? && Less(t.amount.value, StructuringThreshold) && t.fromAccount.Some? && t.timestamp.Some?
    requires var a := t.fromAccount.value;
      a in histories ==> forall i :: 0 <= i < |histories[a]| ==> histories[a][i].timestamp.Some?
    ensures var a := t.fromAccount.value;
      var earlier := if a in histories then histories[a] else [];
      Check(histories, t).suspicious.Some?
      && (Check(histories, t).suspicious.value <==> CountInWindow(earlier, t.timestamp.value, TimeWindowMinutes).value >= 4)
  {
    var a := t.fromAccount.value;
    var earlier := if a in histories then histories[a] else [];
    var rec := TransactionRecord(t.timestamp, t.amount.value);
    CountAppend(earlier, rec, t.timestamp.value, TimeWindowMinutes);
  }

  /** One more repetition of the same small transaction from an account whose history
      holds n in-window copies of it. */
  lemma RepeatStep(histories: Histories, t: Transaction, n: nat)
    requires t.amount.Some? && Less(t.amount.value, StructuringThreshold) && t.fromAccount.Some? && t.timestamp.Some?
    requires var a := t.fromAccount.value;
      (n == 0 ==> a !in histories)
      && (n > 0 ==> a in histories && (forall i :: 0 <= i < |histories[a]| ==> histories[a][i].timestamp == t.timestamp)
                    && CountInWindow(histories[a], t.timestamp.value, TimeWindowMinutes) == Some(n))
    ensures var a := t.fromAccount.value;
      var o := Check(histories, t);
      o.suspicious == Some(n + 1 >= MaxSmallTransactions)
      && a in o.histories && (forall i :: 0 <= i < |o.histories[a]| ==> o.histories[a][i].timestamp == t.timestamp)
      && CountInWindow(o.histories[a], t.timestamp.value, TimeWindowMinutes) == Some(n + 1)
  {
    var a := t.fromAccount.value;
    var earlier := if a in histories then histories[a] else [];
    var rec := TransactionRecord(t.timestamp, t.amount.value);
    SuspiciousIffFourEarlier(histories, t);
    CountAppend(earlier, rec, t.timestamp.value, TimeWindowMinutes);
  }

  /** The same small transaction, sent five times from a fresh state, is not suspicious the
      first four times and suspicious the fifth. */
  lemma FifthRepeatIsSuspicious(t: Transaction)
    requires t.amount.Some? && Less(t.amount.value, StructuringThreshold) && t.fromAccount.Some? && t.timestamp.Some?
    ensures var o1 := Check(map[], t);
      var o2 := Check(o1.histories, t);
      var o3 := Check(o2.histories, t);
      var o4 := Check(o3.histories, t);
      var o5 := Check(o4.histories, t);
      o1.suspicious == o2.suspicious == o3.suspicious == o4.suspicious == Some(false) && o5.suspicious == Some(true)
  {
    var o1 := Check(map[], t);
    RepeatStep(map[], t, 0);
    var o2 := Check(o1.histories, t);
    RepeatStep(o1.histories, t, 1);
    var o3 := Check(o2.histories, t);
    RepeatStep(o2.histories, t, 2);
    var o4 := Check(o3.histories, t);
    RepeatStep(o3.histories, t, 3);
    RepeatStep(o4.histories, t, 4);
  }

  /** After a cleanup no account has an empty history, every record left is at most two
      hours old, every record of the last two hours is still there, and cleaning again at
      the same time changes nothing. */
  lemma CleanupProperties(histories: Histories, now: LocalDateTime)
    requires AllTimed(histories)
    ensures var c := Cleaned(histories, now);
      AllTimed(c)
      && (forall a :: a in c ==> c[a] != [] && forall i :: 0 <= i < |c[a]| ==> InWindow(c[a][i].timestamp.value, now, RetentionMinutes))
      && (forall a, i :: a in histories && 0 <= i < |histories[a]| && InWindow(histories[a][i].timestamp.value, now, RetentionMinutes)
            ==> a in c && histories[a][i] in c[a])
      && Cleaned(c, now) == c
  {
    var c := Cleaned(histories, now);
    forall a | a in c ensures Retained(c[a], now) == c[a] {
      RetainedIdempotent(histories[a], now);
    }
    assert Cleaned(c, now) == c;
  }

  /** Pruning a history that is already pruned changes nothing. */
  lemma {:induction false} RetainedIdempotent(records: seq<TransactionRecord>, now: LocalDateTime)
    requires forall i :: 0 <= i < |records| ==> records[i].timestamp.Some?
    ensures Retained(Retained(records, now), now) == Retained(records, now)
  {
    if records != [] {
      assert forall i :: 1 <= i < |records| ==> records[i] == records[1..][i - 1];
      RetainedIdempotent(records[1..], now);
      var rest := Retained(records[1..], now);
      if InWindow(records[0].timestamp.value, now, RetentionMinutes) {
        assert ([records[0]] + rest)[1..] == rest;
      }
    }
  }

  /** Two hours of retention cover the 60-minute window: for any transaction time no more
      than an hour before the cleanup, pruning leaves the window's count unchanged. */
  lemma {:induction false} CleanupKeepsWindow(records: seq<TransactionRecord>, now: LocalDateTime, currentTime: LocalDateTime)
    requires forall i :: 0 <= i < |records| ==> records[i].timestamp.Some?
    requires EpochNanos(currentTime) >= EpochNanos(now) - 60 * NanosPerMinute
    ensures CountInWindow(Retained(records, now), currentTime, TimeWindowMinutes) == CountInWindow(records, currentTime, TimeWindowMinutes)
  {
    if records != [] {
      assert forall i :: 1 <= i < |records| ==> records[i] == records[1..][i - 1];
      CleanupKeepsWindow(records[1..], now, currentTime);
      var rest := Retained(records[1..], now);
      if InWindow(records[0].timestamp.value, now, RetentionMinutes) {
        assert ([records[0]] + rest)[1..] == rest;
      }
    }
  }

  /** The rule engine's severity table rates this rule MEDIUM. */
  lemma StructuringSeverity()
    ensures Engine.DetermineSeverity(RuleName) == "MEDIUM"
  {
  }
}
