/**
 * java.math.BigDecimal as an (unscaled value, scale) pair: the number is
 * unscaled × 10^(-scale). `compareTo` looks at the value only, `equals` (and
 * so every `Set.contains`) at the pair.
 */
module BigDec {
  import opened Wrappers
  import opened JavaString

  datatype BigDecimal = BigDecimal(unscaled: int, scale: int)

  function Abs(x: int): nat { if x < 0 then -x else x }

  function Max(a: int, b: int): int { if a >= b then a else b }

  /** The number as an integer count of units of 10^(-s), for a scale s at least its own. */
  function AtScale(d: BigDecimal, s: int): int
    requires s >= d.scale
  {
    d.unscaled * Pow10(s - d.scale)
  }

  function Sign(x: int): int { if x < 0 then -1 else if x == 0 then 0 else 1 }

  /** BigDecimal.compareTo: -1, 0 or 1 as `a` is below, equal to or above `b`. */
  function CompareTo(a: BigDecimal, b: BigDecimal): (r: int)
    ensures r == -1 || r == 0 || r == 1
  {
    var s := Max(a.scale, b.scale);
    var x := a.unscaled * Pow10(s - a.scale);
    var y := b.unscaled * Pow10(s - b.scale);
    if x < y then -1 else if x == y then 0 else 1
  }

  predicate Less(a: BigDecimal, b: BigDecimal) { CompareTo(a, b) < 0 }

  predicate AtLeast(a: BigDecimal, b: BigDecimal) { CompareTo(a, b) >= 0 }

  /** BigDecimal.multiply: unscaled values multiply, scales add. */
  function Multiply(a: BigDecimal, b: BigDecimal): BigDecimal {
    BigDecimal(a.unscaled * b.unscaled, a.scale + b.scale)
  }

  /** BigDecimal.subtract: the result has the larger of the two scales. */
  function Subtract(a: BigDecimal, b: BigDecimal): BigDecimal {
    var s := Max(a.scale, b.scale);
    BigDecimal(a.unscaled * Pow10(s - a.scale) - b.unscaled * Pow10(s - b.scale), s)
  }

  const Zero := BigDecimal(0, 0)

  // ---------------------------------------------------------------------------
  // compareTo agrees with the order of the numbers
  // ---------------------------------------------------------------------------

  lemma AtScaleStep(d: BigDecimal, m: int, s: int)
    requires d.scale <= m <= s
    ensures AtScale(d, s) == AtScale(d, m) * Pow10(s - m)
  {
    Pow10Add(m - d.scale, s - m);
    assert Pow10(s - d.scale) == Pow10(m - d.scale) * Pow10(s - m);
  }

  lemma SignOfScaled(x: int, y: int, k: int)
    requires k > 0
    ensures Sign(x * k - y * k) == Sign(x - y)
  {
    assert x * k - y * k == (x - y) * k;
  }

  /** compareTo gives the same answer at every common scale: it compares the numbers,
      not their representations. */
  lemma CompareToAtAnyScale(a: BigDecimal, b: BigDecimal, s: int)
    requires s >= a.scale && s >= b.scale
    ensures CompareTo(a, b) == Sign(AtScale(a, s) - AtScale(b, s))
  {
    var m := Max(a.scale, b.scale);
    AtScaleStep(a, m, s);
    AtScaleStep(b, m, s);
    SignOfScaled(AtScale(a, m), AtScale(b, m), Pow10(s - m));
  }

  /** compareTo is a total preorder: swapping the arguments negates it, and it chains. */
  lemma CompareToAntisymmetric(a: BigDecimal, b: BigDecimal)
    ensures CompareTo(b, a) == -CompareTo(a, b)
  {
    var s := Max(a.scale, b.scale);
    CompareToAtAnyScale(a, b, s);
    CompareToAtAnyScale(b, a, s);
  }

  lemma CompareToTransitive(a: BigDecimal, b: BigDecimal, c: BigDecimal)
    ensures CompareTo(a, b) <= 0 && CompareTo(b, c) <= 0 ==> CompareTo(a, c) <= 0
    ensures CompareTo(a, b) < 0 && CompareTo(b, c) <= 0 ==> CompareTo(a, c) < 0
    ensures CompareTo(a, b) <= 0 && CompareTo(b, c) < 0 ==> CompareTo(a, c) < 0
  {
    var s := Max(Max(a.scale, b.scale), c.scale);
    CompareToAtAnyScale(a, b, s);
    CompareToAtAnyScale(b, c, s);
    CompareToAtAnyScale(a, c, s);
  }

  /** Adding a trailing zero (one more scale digit) never changes compareTo. */
  lemma CompareToIgnoresScale(u: int, s: int, b: BigDecimal)
    ensures CompareTo(BigDecimal(u * 10, s + 1), b) == CompareTo(BigDecimal(u, s), b)
  {
    var a, a' := BigDecimal(u, s), BigDecimal(u * 10, s + 1);
    var m := Max(s + 1, b.scale);
    CompareToAtAnyScale(a, b, m);
    CompareToAtAnyScale(a', b, m);
    Pow10Add(1, m - (s + 1));
    assert AtScale(a, m) == AtScale(a', m);
  }

  /** multiply is exact: at the sum of the scales its units are the product of the units. */
  lemma MultiplyAtScale(a: BigDecimal, b: BigDecimal)
    ensures AtScale(Multiply(a, b), a.scale + b.scale) == AtScale(a, a.scale) * AtScale(b, b.scale)
  {
  }

  /** Multiplying by a positive number keeps the order: a rate never swaps two amounts. */
  lemma MultiplyMonotone(a: BigDecimal, b: BigDecimal, rate: BigDecimal)
    requires rate.unscaled > 0
    ensures CompareTo(a, b) <= 0 ==> CompareTo(Multiply(a, rate), Multiply(b, rate)) <= 0
  {
    var s := Max(a.scale, b.scale);
    var big := s + rate.scale;
    CompareToAtAnyScale(a, b, s);
    CompareToAtAnyScale(Multiply(a, rate), Multiply(b, rate), big);
    assert AtScale(Multiply(a, rate), big) == AtScale(a, s) * rate.unscaled;
    assert AtScale(Multiply(b, rate), big) == AtScale(b, s) * rate.unscaled;
    if AtScale(a, s) <= AtScale(b, s) {
      assert AtScale(a, s) * rate.unscaled <= AtScale(b, s) * rate.unscaled;
    }
  }

  // ---------------------------------------------------------------------------
  // BigDecimal.toString
  // ---------------------------------------------------------------------------

  /** Digits of the unscaled value, without sign. */
  function Coefficient(d: BigDecimal): string { NatToString(Abs(d.unscaled)) }

  /** The exponent toString would print in scientific notation. */
  function Adjusted(d: BigDecimal): int { |Coefficient(d)| - 1 - d.scale }

  /** toString uses plain notation exactly here. */
  predicate PlainNotation(d: BigDecimal) { d.scale == 0 || (d.scale > 0 && Adjusted(d) >= -6) }

  /** The coefficient with a decimal point `scale` digits from its right end. */
  function PointAt(digits: string, scale: nat): string
    requires scale > 0
  {
    if |digits| > scale then digits[..|digits| - scale] + "." + digits[|digits| - scale..]
    else "0." + Zeros(scale - |digits|) + digits
  }

  /** BigDecimal.toString: plain notation when the scale is zero, or positive with an
      adjusted exponent of at least -6; scientific notation otherwise. */
  function ToString(d: BigDecimal): string {
    var digits := Coefficient(d);
    var sign := if d.unscaled < 0 then "-" else "";
    var adjusted := Adjusted(d);
    if d.scale == 0 then sign + digits
    else if d.scale > 0 && adjusted >= -6 then sign + PointAt(digits, d.scale)
    else
      sign + digits[..1] + (if |digits| > 1 then "." + digits[1..] else "")
      + (if adjusted == 0 then ""
         else "E" + (if adjusted > 0 then "+" else "-") + NatToString(Abs(adjusted)))
  }

  // ---------------------------------------------------------------------------
  // new BigDecimal(String)
  // ---------------------------------------------------------------------------

  /** Position of the first exponent marker 'e' or 'E', or the length. */
  function ExponentMark(s: string): (k: nat)
    ensures k <= |s|
    ensures forall i :: 0 <= i < k ==> s[i] != 'e' && s[i] != 'E'
    ensures k < |s| ==> s[k] == 'e' || s[k] == 'E'
  {
    if s == [] || s[0] == 'e' || s[0] == 'E' then 0 else 1 + ExponentMark(s[1..])
  }

  /** An optionally signed decimal integer with at least one digit. */
  function ParseSignedInt(s: string): Option<int> {
    var neg := |s| > 0 && s[0] == '-';
    var t := if |s| > 0 && (s[0] == '-' || s[0] == '+') then s[1..] else s;
    if t == [] || !AllDigits(t) then None
    else var v: int := DigitsValue(t); Some(if neg then -v else v)
  }

  /** The unsigned part of a decimal literal: digits with at most one point, then an
      optional exponent; the result is the magnitude and the scale. */
  function ParseUnsigned(body: string): Option<(nat, int)> {
    var e := ExponentMark(body);
    var exponent := if e == |body| then Some(0) else ParseSignedInt(body[e + 1..]);
    match exponent
    case None => None
    case Some(x) =>
      match ParseMantissa(body[..e])
      case None => None
      case Some(m) => Some((m.0, m.1 - x))
  }

  /** Digits with at most one point and at least one digit: the digits' value and how many
      follow the point. */
  function ParseMantissa(mantissa: string): Option<(nat, nat)> {
    var p := IndexOf(mantissa, ".");
    var intPart := if p == -1 then mantissa else mantissa[..p];
    var fracPart := if p == -1 then "" else mantissa[p + 1..];
    if !AllDigits(intPart) || !AllDigits(fracPart) || |intPart| + |fracPart| == 0 then None
    else
      DigitsValueConcat(intPart, fracPart);
      Some((DigitsValue(intPart + fracPart), |fracPart|))
  }

  /** new BigDecimal(String): an optional sign, then the unsigned literal; anything else
      is a NumberFormatException (None). */
  function Parse(s: string): Option<BigDecimal> {
    var neg := |s| > 0 && s[0] == '-';
    var body := if |s| > 0 && (s[0] == '-' || s[0] == '+') then s[1..] else s;
    match ParseUnsigned(body)
    case None => None
    case Some(v) => Some(BigDecimal(if neg then -(v.0 as int) else v.0, v.1))
  }

  lemma NoDotInDigits(s: string)
    requires AllDigits(s)
    ensures IndexOf(s, ".") == -1
  {
    forall i ensures !OccursAt(s, ".", i) {
      if 0 <= i < |s| {
        assert s[i..i + 1][0] == s[i];
      }
    }
  }

  lemma DotAfterDigits(a: string, b: string)
    requires AllDigits(a)
    ensures IndexOf(a + "." + b, ".") == |a|
  {
    var t := a + "." + b;
    assert OccursAt(t, ".", |a|);
    forall i | 0 <= i < |a| ensures !OccursAt(t, ".", i) {
      assert t[i] == a[i];
    }
  }

  lemma MantissaWithoutPoint(digits: string)
    requires AllDigits(digits) && digits != []
    ensures ParseMantissa(digits) == Some((DigitsValue(digits), 0))
  {
    NoDotInDigits(digits);
    assert digits + "" == digits;
  }

  lemma MantissaWithPoint(a: string, b: string)
    requires AllDigits(a) && AllDigits(b) && |a| + |b| > 0
    ensures AllDigits(a + b)
    ensures ParseMantissa(a + "." + b) == Some((DigitsValue(a + b), |b|))
  {
    DigitsValueConcat(a, b);
    var m := a + "." + b;
    DotAfterDigits(a, b);
    assert m[..|a|] == a && m[|a| + 1..] == b;
  }

  /** The unsigned text toString prints for a plain-notation BigDecimal. */
  function PlainBody(d: BigDecimal): string
    requires PlainNotation(d)
  {
    if d.scale == 0 then Coefficient(d) else PointAt(Coefficient(d), d.scale)
  }

  lemma {:induction false} NoExponentMark(s: string)
    requires forall i :: 0 <= i < |s| ==> s[i] != 'e' && s[i] != 'E'
    ensures ExponentMark(s) == |s|
  {
    if s != [] {
      NoExponentMark(s[1..]);
    }
  }

  /** A pointed literal without exponent reads as its digits and the digits after the point. */
  lemma UnsignedWithPoint(a: string, b: string)
    requires AllDigits(a) && AllDigits(b) && |a| + |b| > 0
    ensures AllDigits(a + b)
    ensures ParseUnsigned(a + "." + b) == Some((DigitsValue(a + b), |b| as int))
  {
    var t := a + "." + b;
    forall i | 0 <= i < |t| ensures t[i] != 'e' && t[i] != 'E' {
      if i < |a| { assert t[i] == a[i]; }
      else if i > |a| { assert t[i] == b[i - |a| - 1]; }
    }
    NoExponentMark(t);
    assert t[..|t|] == t;
    MantissaWithPoint(a, b);
  }

  lemma PlainBodyParses(d: BigDecimal)
    requires PlainNotation(d)
    ensures ParseUnsigned(PlainBody(d)) == Some((Abs(d.unscaled), d.scale))
  {
    var digits := Coefficient(d);
    NatToStringValue(Abs(d.unscaled));
    if d.scale == 0 {
      UnsignedWithoutPoint(digits);
    } else if |digits| > d.scale {
      PointInside(digits, d.scale);
    } else {
      PointInFront(digits, d.scale);
    }
  }

  lemma UnsignedWithoutPoint(digits: string)
    requires AllDigits(digits) && digits != []
    ensures ParseUnsigned(digits) == Some((DigitsValue(digits), 0))
  {
    assert ExponentMark(digits) == |digits| by {
      forall i | 0 <= i < |digits| ensures digits[i] != 'e' && digits[i] != 'E' {
        assert IsDigit(digits[i]);
      }
      NoExponentMark(digits);
    }
    assert digits[..|digits|] == digits;
    MantissaWithoutPoint(digits);
  }

  lemma PointInside(digits: string, scale: nat)
    requires AllDigits(digits) && 0 < scale < |digits|
    ensures ParseUnsigned(PointAt(digits, scale)) == Some((DigitsValue(digits), scale as int))
  {
    var k := |digits| - scale;
    SplitDigits(digits, k);
    UnsignedWithPoint(digits[..k], digits[k..]);
  }

  /** Both sides of a cut through a run of digits are runs of digits. */
  lemma SplitDigits(digits: string, k: nat)
    requires AllDigits(digits) && k <= |digits|
    ensures AllDigits(digits[..k]) && AllDigits(digits[k..]) && digits[..k] + digits[k..] == digits
    ensures 0 < k < |digits| ==> PointAt(digits, |digits| - k) == digits[..k] + "." + digits[k..]
  {
    forall i | 0 <= i < |digits| - k ensures IsDigit(digits[k..][i]) {
      assert digits[k..][i] == digits[k + i];
    }
  }

  lemma PointInFront(digits: string, scale: nat)
    requires AllDigits(digits) && 0 < scale && |digits| <= scale
    ensures ParseUnsigned(PointAt(digits, scale)) == Some((DigitsValue(digits), scale as int))
  {
    var frac := Zeros(scale - |digits|) + digits;
    FrontParts(digits, scale);
    ZeroPointParses(frac);
  }

  /** The text in front of the digits is "0." and leading zeros; they do not change the value. */
  lemma FrontParts(digits: string, scale: nat)
    requires AllDigits(digits) && 0 < scale && |digits| <= scale
    ensures var frac := Zeros(scale - |digits|) + digits;
      PointAt(digits, scale) == "0" + "." + frac
      && AllDigits(frac) && DigitsValue(frac) == DigitsValue(digits) && |frac| == scale
  {
    Regroup(Zeros(scale - |digits|), digits);
    DigitsValueLeadingZeros(scale - |digits|, digits);
  }

  /** "0." and digits reads as the digits' value, with as many digits after the point. */
  lemma ZeroPointParses(frac: string)
    requires AllDigits(frac)
    ensures ParseUnsigned("0" + "." + frac) == Some((DigitsValue(frac), |frac| as int))
  {
    UnsignedWithPoint("0", frac);
    LeadingZero(frac);
  }

  lemma Regroup(z: string, digits: string)
    ensures "0." + z + digits == "0" + "." + (z + digits)
  {
  }

  lemma LeadingZero(s: string)
    requires AllDigits(s)
    ensures AllDigits("0" + s) && DigitsValue("0" + s) == DigitsValue(s)
  {
    DigitsValueLeadingZeros(1, s);
    assert Zeros(1) + s == "0" + s;
  }

  /** Reading back what toString prints in plain notation gives the same BigDecimal,
      scale included. */
  lemma ParseToString(d: BigDecimal)
    requires PlainNotation(d)
    ensures Parse(ToString(d)) == Some(d)
  {
    var body := PlainBody(d);
    var sign := if d.unscaled < 0 then "-" else "";
    var s := sign + body;
    assert ToString(d) == s;
    assert body != [] && IsDigit(body[0]);
    assert (if |s| > 0 && (s[0] == '-' || s[0] == '+') then s[1..] else s) == body;
    PlainBodyParses(d);
  }
}
