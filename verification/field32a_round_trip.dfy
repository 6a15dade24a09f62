/**
 * The :32A: amount across the two services: the generator's formatter prints the amount
 * with a decimal comma, and the alert service's reader takes the currency and the amount
 * back out of the field value.
 */
module Field32ARoundTrip {
  import opened Wrappers
  import opened JavaString
  import opened BigDec
  import opened AlertModel
  import opened SwiftReader
  import Mt103Formatter

  /** A non-negative amount in plain notation prints as digits and at most one point. */
  lemma PlainAmountChars(d: BigDecimal)
    requires PlainNotation(d) && d.unscaled >= 0
    ensures forall i :: 0 <= i < |ToString(d)| ==> AmountChar(ToString(d)[i])
  {
    var digits := Coefficient(d);
    if d.scale == 0 {
      assert ToString(d) == digits;
    } else {
      assert ToString(d) == PointAt(digits, d.scale);
      PointAtChars(digits, d.scale);
    }
  }

  /** Digits with the point placed by the scale are all amount characters. */
  lemma PointAtChars(digits: string, scale: nat)
    requires AllDigits(digits) && scale > 0
    ensures forall i :: 0 <= i < |PointAt(digits, scale)| ==> AmountChar(PointAt(digits, scale)[i])
  {
    if |digits| > scale {
      var k := |digits| - scale;
      PointedDigitsChars(digits[..k], digits[k..]);
    } else {
      var z := Zeros(scale - |digits|);
      assert PointAt(digits, scale) == "0" + "." + (z + digits);
      DigitsValueLeadingZeros(scale - |digits|, digits);
      PointedDigitsChars("0", z + digits);
    }
  }

  /** Digits, a point and digits are all amount characters. */
  lemma PointedDigitsChars(a: string, b: string)
    requires AllDigits(a) && AllDigits(b)
    ensures forall i :: 0 <= i < |a + "." + b| ==> AmountChar((a + "." + b)[i])
  {
    var s := a + "." + b;
    forall i | 0 <= i < |s| ensures AmountChar(s[i]) {
      if i < |a| { assert s[i] == a[i]; }
      else if i > |a| { assert s[i] == b[i - |a| - 1]; }
    }
  }

  /** The amount as the formatter prints it, cleaned as corrected, parses back to the
      amount itself. */
  lemma CleanAmountRoundTrip(d: BigDecimal)
    requires PlainNotation(d) && d.unscaled >= 0
    ensures Parse(CleanAmount(Mt103Formatter.FormatAmount(ToString(d)))) == Some(d)
  {
    Mt103Formatter.FormatAmountInverse(d);
    PlainAmountChars(d);
    FilterKeepsAll(ToString(d), AmountChar);
    ParseToString(d);
  }

  /** A :32A: value as the formatter builds it (six date digits, the three-letter currency,
      the amount with a decimal comma) read back by the corrected handler gives the same
      currency and amount. */
  lemma Field32ARead(t: Transaction, date: string, currency: string, d: BigDecimal)
    requires |date| == 6 && |currency| == 3
    requires PlainNotation(d) && d.unscaled >= 0
    ensures var r := Apply32AWith(t, date + currency + Mt103Formatter.FormatAmount(ToString(d)), CleanAmount);
      r.currency == Some(currency) && r.amount == Some(d)
  {
    var a := Mt103Formatter.FormatAmount(ToString(d));
    var value := date + currency + a;
    assert value[6..9] == currency;
    assert value[9..] == a;
    assert |ToString(d)| > 0 by {
      if d.scale != 0 { assert |PointAt(Coefficient(d), d.scale)| > 0; }
    }
    CleanAmountRoundTrip(d);
  }

  lemma DropComma(a: string, b: string)
    requires AllDigits(a) && AllDigits(b)
    ensures CleanAmountAsWritten(a + "," + b) == a + b
  {
    FilterConcat(a + ",", b, AmountChar);
    FilterConcat(a, ",", AmountChar);
    FilterKeepsAll(a, AmountChar);
    FilterKeepsAll(b, AmountChar);
    assert Filter(",", AmountChar) == "";
  }

  lemma CommaForPoint(a: string, b: string)
    requires AllDigits(a) && AllDigits(b)
    ensures Mt103Formatter.FormatAmount(a + "." + b) == a + "," + b
  {
    var f := Mt103Formatter.FormatAmount(a + "." + b);
    forall i | 0 <= i < |f| ensures f[i] == (a + "," + b)[i] {
      if i < |a| { assert IsDigit(a[i]); } else if i > |a| { assert IsDigit(b[i - |a| - 1]); }
    }
  }

  lemma DigitsParse(digits: string)
    requires AllDigits(digits) && digits != []
    ensures Parse(digits) == Some(BigDecimal(DigitsValue(digits), 0))
  {
    UnsignedWithoutPoint(digits);
    assert IsDigit(digits[0]);
  }

  lemma ScaledUp(u: int, scale: int)
    requires u > 0 && scale > 0
    ensures CompareTo(BigDecimal(u, 0), BigDecimal(u, scale)) == 1
  {
    assert Pow10(scale) == 10 * Pow10(scale - 1);
  }

  /** The handler as written drops the decimal comma with the other characters: an amount
      with a fraction (588.4, printed "588,4") comes back as its unscaled digits at scale 0
      (5884), larger than the amount the formatter printed. */
  lemma CommaDroppedAsWritten(d: BigDecimal)
    requires d.unscaled > 0 && d.scale > 0 && |Coefficient(d)| > d.scale
    ensures Parse(CleanAmountAsWritten(Mt103Formatter.FormatAmount(ToString(d)))) == Some(BigDecimal(d.unscaled, 0))
    ensures CompareTo(BigDecimal(d.unscaled, 0), d) == 1
  {
    var digits := Coefficient(d);
    var k := |digits| - d.scale;
    var a, b := digits[..k], digits[k..];
    assert ToString(d) == a + "." + b;
    CommaForPoint(a, b);
    DropComma(a, b);
    assert a + b == digits;
    DigitsParse(digits);
    NatToStringValue(d.unscaled);
    ScaledUp(d.unscaled, d.scale);
  }
}
