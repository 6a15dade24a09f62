/**
 * The generator's transaction record. The BIC, account, name and currency fields
 * are always filled in by the factories; identifier, IBANs and country codes may be
 * null and are options here.
 */
module GenTransaction {
  import opened Wrappers
  import opened BigDec
  import opened Clock

  datatype Transaction = Transaction(
    transactionId: Option<string>,
    fromAccount: string,
    toAccount: string,
    amount: BigDecimal,
    currency: string,
    fromBankSwift: string,
    toBankSwift: string,
    fromBankName: string,
    toBankName: string,
    timestamp: LocalDateTime,
    status: string,
    fromIBAN: Option<string>,
    toIBAN: Option<string>,
    fromCountryCode: Option<string>,
    toCountryCode: Option<string>)

  /** The ISO 9362 country code of a BIC: its characters 5 and 6, when it has six or more. */
  function ExtractCountryCode(swiftCode: Option<string>): (r: Option<string>)
    ensures r.Some? <==> swiftCode.Some? && |swiftCode.value| >= 6
    ensures r.Some? ==> |r.value| == 2 && r.value == swiftCode.value[4..6]
  {
    if swiftCode.Some? && |swiftCode.value| >= 6 then Some(swiftCode.value[4..6]) else None
  }

  /** The 11-argument constructor: no IBANs yet, both country codes taken from the BICs. */
  function NewTransaction(
    transactionId: Option<string>, fromAccount: string, toAccount: string,
    amount: BigDecimal, currency: string, fromBankSwift: string, toBankSwift: string,
    fromBankName: string, toBankName: string, timestamp: LocalDateTime, status: string): (t: Transaction)
    ensures t.transactionId == transactionId && t.amount == amount && t.currency == currency
    ensures t.fromAccount == fromAccount && t.toAccount == toAccount
    ensures t.fromBankName == fromBankName && t.toBankName == toBankName
    ensures t.timestamp == timestamp && t.status == status
    ensures t.fromBankSwift == fromBankSwift && t.toBankSwift == toBankSwift
    ensures t.fromIBAN.None? && t.toIBAN.None?
    ensures t.fromCountryCode == (if |fromBankSwift| >= 6 then Some(fromBankSwift[4..6]) else None)
    ensures t.toCountryCode == (if |toBankSwift| >= 6 then Some(toBankSwift[4..6]) else None)
  {
    Transaction(transactionId, fromAccount, toAccount, amount, currency, fromBankSwift, toBankSwift,
      fromBankName, toBankName, timestamp, status, None, None,
      ExtractCountryCode(Some(fromBankSwift)), ExtractCountryCode(Some(toBankSwift)))
  }

  /** Both country codes are known and they differ. */
  predicate IsCrossBorder(t: Transaction) {
    t.fromCountryCode.Some? && t.toCountryCode.Some? && t.fromCountryCode.value != t.toCountryCode.value
  }

  /** Swapping sender and receiver country codes does not change cross-border status. */
  lemma CrossBorderSymmetric(t: Transaction, u: Transaction)
    requires u.fromCountryCode == t.toCountryCode && u.toCountryCode == t.fromCountryCode
    ensures IsCrossBorder(u) == IsCrossBorder(t)
  {
  }

  /** For a freshly constructed transaction, cross-border means both BICs carry a country
      code and the two codes differ. */
  lemma NewTransactionCrossBorder(
    transactionId: Option<string>, fromAccount: string, toAccount: string,
    amount: BigDecimal, currency: string, fromBankSwift: string, toBankSwift: string,
    fromBankName: string, toBankName: string, timestamp: LocalDateTime, status: string)
    ensures IsCrossBorder(NewTransaction(transactionId, fromAccount, toAccount, amount, currency,
              fromBankSwift, toBankSwift, fromBankName, toBankName, timestamp, status))
        <==> |fromBankSwift| >= 6 && |toBankSwift| >= 6 && fromBankSwift[4..6] != toBankSwift[4..6]
  {
  }
}
