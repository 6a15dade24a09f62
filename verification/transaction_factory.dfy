/**
 * The generator's base transaction factory: the settlement currency of a pair of banks,
 * the choice of a receiving bank different from the sender, account numbers, and the
 * assembly of a base transaction.
 *
 * Every random draw is a parameter: `draws(k)` is the k-th index that `getRandomBank`
 * picks, `digits` the values of `random.nextInt(10)`, `longForm` the outcome of
 * `random.nextDouble() < 0.7`, and `hashCode` stands for `String.hashCode`.
 */
module TransactionFactory {
  import opened Wrappers
  import opened JavaString
  import opened BigDec
  import opened Clock
  import opened GenTransaction
  import opened BankData

  /** The countries matched by the pattern "DE|FR|IT|ES|NL|BE|AT|PT|IE|FI|LU". */
  const EuropeanCountries: set<string> := {"DE", "FR", "IT", "ES", "NL", "BE", "AT", "PT", "IE", "FI", "LU"}

  /** How many banks getDistinctToBank draws at most: the first draw and ten retries. */
  const MaxDraws: nat := 11

  const TransactionStatuses: seq<string> := ["PENDING", "PROCESSING"]

  predicate IsEuropeanBank(bank: BankInfo) {
    bank.countryCode in EuropeanCountries
  }

  predicate IsUSBank(bank: BankInfo) {
    bank.countryCode == "US"
  }

  /** determineCurrency: EUR between two European banks, else USD when a US bank is involved,
      else the sender's currency. */
  function DetermineCurrency(fromBank: BankInfo, toBank: BankInfo): (r: string)
    ensures IsEuropeanBank(fromBank) && IsEuropeanBank(toBank) ==> r == "EUR"
    ensures !(IsEuropeanBank(fromBank) && IsEuropeanBank(toBank)) && (IsUSBank(fromBank) || IsUSBank(toBank)) ==> r == "USD"
    ensures !(IsEuropeanBank(fromBank) && IsEuropeanBank(toBank)) && !IsUSBank(fromBank) && !IsUSBank(toBank)
            ==> r == fromBank.currencyCode
  {
    if IsEuropeanBank(fromBank) && IsEuropeanBank(toBank) then "EUR"
    else if IsUSBank(fromBank) || IsUSBank(toBank) then "USD"
    else fromBank.currencyCode
  }

  /** A US bank is never European, so any transfer touching a US bank settles in USD. */
  lemma USBankSettlesInDollars(fromBank: BankInfo, toBank: BankInfo)
    requires IsUSBank(fromBank) || IsUSBank(toBank)
    ensures DetermineCurrency(fromBank, toBank) == "USD"
  {
    assert "US" !in EuropeanCountries;
  }

  /** The currency is EUR, USD or the sender's own; EUR between banks that are not both
      European only comes from the sender's currency; and when the rule is decided by the
      countries alone, swapping sender and receiver gives the same currency. */
  lemma CurrencyChoices(fromBank: BankInfo, toBank: BankInfo)
    ensures DetermineCurrency(fromBank, toBank) in {"EUR", "USD", fromBank.currencyCode}
    ensures DetermineCurrency(fromBank, toBank) == "EUR" ==>
      (IsEuropeanBank(fromBank) && IsEuropeanBank(toBank)) || fromBank.currencyCode == "EUR"
    ensures (IsEuropeanBank(fromBank) && IsEuropeanBank(toBank)) || IsUSBank(fromBank) || IsUSBank(toBank)
            ==> DetermineCurrency(fromBank, toBank) == DetermineCurrency(toBank, fromBank)
  {
  }

  /** The bank an index draw picks (getRandomBank); None when there are no banks, where
      the source throws. */
  function DrawnBank(banks: seq<BankInfo>, draw: nat): Option<BankInfo> {
    if banks == [] then None else Some(banks[draw % |banks|])
  }

  /** getDistinctToBank's outcome: `toBank` is the bank of draw `used - 1`, every earlier draw
      had the sender's BIC, and the draws stopped at a different BIC or after the last retry. */
  predicate DrawnAfterRetries(banks: seq<BankInfo>, fromBank: BankInfo, draws: nat -> nat, used: nat, toBank: BankInfo) {
    1 <= used <= MaxDraws
    && DrawnBank(banks, draws(used - 1)) == Some(toBank)
    && (forall k :: 0 <= k < used - 1 ==>
          DrawnBank(banks, draws(k)).Some? && DrawnBank(banks, draws(k)).value.swiftCode == fromBank.swiftCode)
    && (toBank.swiftCode != fromBank.swiftCode || used == MaxDraws)
  }

  /** The digits of an account number as text. */
  function DigitText(digits: seq<nat>): (r: string)
    requires forall i :: 0 <= i < |digits| ==> digits[i] < 10
    ensures |r| == |digits| && AllDigits(r)
    ensures forall i :: 0 <= i < |digits| ==> DigitValue(r[i]) == digits[i]
  {
    if digits == [] then "" else DigitText(digits[..|digits| - 1]) + [DigitChar(digits[|digits| - 1])]
  }

  lemma SmallIntToString(d: nat)
    requires d < 10
    ensures IntToString(d) == [DigitChar(d)]
  {
  }

  /** A base transaction: what createBaseTransaction assembles from its draws. */
  function BaseTransaction(
    transactionId: string, fromBank: BankInfo, toBank: BankInfo, fromAccount: string, toAccount: string,
    amount: BigDecimal, now: LocalDateTime, status: string, hashCode: string -> int): (t: Transaction)
    requires forall s :: IsInt(hashCode(s))
    ensures t.fromAccount == fromAccount && t.toAccount == toAccount
    ensures t.currency == DetermineCurrency(fromBank, toBank)
    ensures t.fromBankSwift == fromBank.swiftCode && t.toBankSwift == toBank.swiftCode
    ensures t.fromIBAN == Some(Iban(fromBank, hashCode(fromAccount)))
    ensures t.toIBAN == Some(Iban(toBank, hashCode(toAccount)))
    ensures t.fromCountryCode == Some(fromBank.countryCode) && t.toCountryCode == Some(toBank.countryCode)
  {
    NewTransaction(Some(transactionId), fromAccount, toAccount, amount, DetermineCurrency(fromBank, toBank),
      fromBank.swiftCode, toBank.swiftCode, fromBank.bankName, toBank.bankName, now, status)
    .(fromIBAN := Some(Iban(fromBank, hashCode(fromAccount))),
      toIBAN := Some(Iban(toBank, hashCode(toAccount))),
      fromCountryCode := Some(fromBank.countryCode),
      toCountryCode := Some(toBank.countryCode))
  }

  /** The country codes of a base transaction come from the bank directory, so a transfer
      is cross-border exactly when the two banks' countries differ, whatever their BICs say. */
  lemma BaseTransactionCrossBorder(
    transactionId: string, fromBank: BankInfo, toBank: BankInfo, fromAccount: string, toAccount: string,
    amount: BigDecimal, now: LocalDateTime, status: string, hashCode: string -> int)
    requires forall s :: IsInt(hashCode(s))
    ensures var t := BaseTransaction(transactionId, fromBank, toBank, fromAccount, toAccount,
        amount, now, status, hashCode);
      IsCrossBorder(t) <==> fromBank.countryCode != toBank.countryCode
  {
  }

  /** The factory; it draws its banks from the bank directory. */
  class BaseTransactionFactory {
    const bankDataService: BankDataService

    constructor (service: BankDataService)
      ensures bankDataService == service
    {
      bankDataService := service;
    }

    /** getDistinctToBank: draws again while the drawn bank has the sender's BIC, at most
        ten times; the last bank drawn is returned even when it is still the sender's. */
    method GetDistinctToBank(fromBank: BankInfo, draws: nat -> nat) returns (toBank: Option<BankInfo>, used: nat)
      ensures bankDataService.banks == [] ==> toBank.None?
      ensures bankDataService.banks != [] ==>
        var banks := bankDataService.banks;
        1 <= used <= MaxDraws
        && toBank == DrawnBank(banks, draws(used - 1))
        && (forall k :: 0 <= k < used - 1 ==> DrawnBank(banks, draws(k)).value.swiftCode == fromBank.swiftCode)
        && (toBank.value.swiftCode != fromBank.swiftCode || used == MaxDraws)
    {
      var banks := bankDataService.banks;
      toBank := bankDataService.GetRandomBank(draws(0));
      if toBank.None? {
        return toBank, 1;
      }
      var attempts := 0;
      while toBank.value.swiftCode == fromBank.swiftCode && attempts < 10
        invariant 0 <= attempts <= 10
        invariant toBank == DrawnBank(banks, draws(attempts))
        invariant forall k :: 0 <= k < attempts ==> DrawnBank(banks, draws(k)).value.swiftCode == fromBank.swiftCode
      {
        toBank := bankDataService.GetRandomBank(draws(attempts + 1));
        attempts := attempts + 1;
      }
      used := attempts + 1;
    }

    /** generateAccountNumber: twelve digits in the long form, else ten. */
    method GenerateAccountNumber(longForm: bool, digits: seq<nat>) returns (account: string)
      requires |digits| >= 12 && forall i :: 0 <= i < |digits| ==> digits[i] < 10
      ensures var length := if longForm then 12 else 10;
        account == DigitText(digits[..length])
        && |account| == length && AllDigits(account)
    {
      var sb := new StringBuilder();
      var length := if longForm then 12 else 10;
      for i := 0 to length
        invariant sb.text == DigitText(digits[..i])
      {
        SmallIntToString(digits[i]);
        sb.Append(IntToString(digits[i]));
        assert digits[..i + 1][..i] == digits[..i];
      }
      account := sb.text;
    }

    /** createBaseTransaction with its draws as parameters: None when there are no banks. */
    method CreateBaseTransaction(
      fromDraw: nat, toDraws: nat -> nat, fromLong: bool, fromDigits: seq<nat>, toLong: bool,
      toDigits: seq<nat>, transactionId: string, amount: BigDecimal, now: LocalDateTime,
      statusDraw: nat, hashCode: string -> int)
      returns (t: Option<Transaction>)
      requires |fromDigits| >= 12 && forall i :: 0 <= i < |fromDigits| ==> fromDigits[i] < 10
      requires |toDigits| >= 12 && forall i :: 0 <= i < |toDigits| ==> toDigits[i] < 10
      requires forall s :: IsInt(hashCode(s))
      ensures t.None? <==> bankDataService.banks == []
      ensures t.Some? ==>
        var fromBank := bankDataService.banks[fromDraw % |bankDataService.banks|];
        t.value.fromBankSwift == fromBank.swiftCode
        && t.value.fromCountryCode == Some(fromBank.countryCode)
        && t.value.fromIBAN == Some(Iban(fromBank, hashCode(t.value.fromAccount)))
        && |t.value.fromAccount| == (if fromLong then 12 else 10) && AllDigits(t.value.fromAccount)
        && |t.value.toAccount| == (if toLong then 12 else 10) && AllDigits(t.value.toAccount)
        && t.value.fromAccount == DigitText(fromDigits[..if fromLong then 12 else 10])
        && t.value.toAccount == DigitText(toDigits[..if toLong then 12 else 10])
        && t.value.status in TransactionStatuses
        && t.value.status == TransactionStatuses[statusDraw % |TransactionStatuses|]
        && exists toBank :: toBank in bankDataService.banks
             && t.value == BaseTransaction(transactionId, fromBank, toBank, t.value.fromAccount,
                  t.value.toAccount, amount, now, t.value.status, hashCode)
             && exists used :: DrawnAfterRetries(bankDataService.banks, fromBank, toDraws, used, toBank)
    {
      var fromBank := bankDataService.GetRandomBank(fromDraw);
      if fromBank.None? {
        return None;
      }
      var toBank, used := GetDistinctToBank(fromBank.value, toDraws);
      assert DrawnAfterRetries(bankDataService.banks, fromBank.value, toDraws, used, toBank.value);
      var fromAccount := GenerateAccountNumber(fromLong, fromDigits);
      var toAccount := GenerateAccountNumber(toLong, toDigits);
      var status := TransactionStatuses[statusDraw % |TransactionStatuses|];
      t := Some(BaseTransaction(transactionId, fromBank.value, toBank.value, fromAccount, toAccount,
        amount, now, status, hashCode));
    }
  }
}
