/** Decimal digits and `pd.to_numeric(..., errors='coerce')` on one text cell. */
module Numeric {
  import opened Wrappers
  import Text

  predicate IsDigit(c: char)
  {
    '0' <= c <= '9'
  }

  predicate AllDigits(s: string)
  {
    forall k :: 0 <= k < |s| ==> IsDigit(s[k])
  }

  function DigitValue(c: char): (d: nat)
    requires IsDigit(c)
    ensures d < 10
  {
    c as int - '0' as int
  }

  function DigitChar(d: nat): (c: char)
    requires d < 10
    ensures IsDigit(c) && DigitValue(c) == d
  {
    ('0' as int + d) as char
  }

  function Pow10(n: nat): (p: nat)
    ensures p >= 1
  {
    if n == 0 then 1 else 10 * Pow10(n - 1)
  }

  /** The value of a run of decimal digits, most significant first. */
  function DigitsValue(s: string): (v: nat)
    requires AllDigits(s)
    ensures v < Pow10(|s|)
  {
    if |s| == 0 then 0 else 10 * DigitsValue(s[..|s| - 1]) + DigitValue(s[|s| - 1])
  }

  /** `n` written with exactly `width` digits, zero-padded on the left (strftime's `%m`,
      `%d`, `%Y` ...). */
  function Padded(n: nat, width: nat): (r: string)
    requires n < Pow10(width)
    ensures |r| == width && AllDigits(r)
    ensures DigitsValue(r) == n
  {
    if width == 0 then ""
    else
      var r := Padded(n / 10, width - 1) + [DigitChar(n % 10)];
      assert r[..|r| - 1] == Padded(n / 10, width - 1);
      r
  }

  /** Every digit run is the padded form of its own value: padding loses nothing. */
  lemma {:induction false} PaddedDigitsValue(s: string)
    requires AllDigits(s)
    ensures Padded(DigitsValue(s), |s|) == s
  {
    if |s| > 0 {
      var init := s[..|s| - 1];
      PaddedDigitsValue(init);
      var v := DigitsValue(s);
      assert v / 10 == DigitsValue(init) && v % 10 == DigitValue(s[|s| - 1]);
      assert s == init + [s[|s| - 1]];
    }
  }

  /** Python's `str(n)` for a natural number: its digits without leading zeros. */
  function Decimal(n: nat): (r: string)
    ensures |r| >= 1 && AllDigits(r)
    ensures DigitsValue(r) == n
  {
    if n < 10 then [DigitChar(n)]
    else
      var r := Decimal(n / 10) + [DigitChar(n % 10)];
      assert r[..|r| - 1] == Decimal(n / 10);
      r
  }

  /** The characters a number may be written with here: digits, one sign, one point. */
  predicate IsNumberChar(c: char)
  {
    IsDigit(c) || c == '+' || c == '-' || c == '.'
  }

  lemma QuotientBelowOne(a: real, b: real)
    requires 0.0 <= a < b
    ensures 0.0 <= a / b < 1.0
  {
    var q := a / b;
    assert q * b == a;
    if q >= 1.0 {
      assert false;
    }
  }

  /** The value of a digit run read as the fraction after a decimal point: its whole value
      over 10^k for k digits. */
  function FractionValue(s: string): (v: real)
    requires AllDigits(s)
    ensures 0.0 <= v < 1.0
  {
    if |s| == 0 then 0.0
    else
      var a, b := DigitsValue(s) as real, Pow10(|s|) as real;
      QuotientBelowOne(a, b);
      a / b
  }

  /** The value of the digits before and after a decimal point; either run may be empty,
      not both. */
  function PointValue(intPart: string, fracPart: string): (r: Option<real>)
    ensures r.Some? ==> r.value >= 0.0 && AllDigits(intPart) && AllDigits(fracPart)
  {
    if AllDigits(intPart) && AllDigits(fracPart) && |intPart| + |fracPart| >= 1 then
      Some(DigitsValue(intPart) as real + FractionValue(fracPart))
    else
      None
  }

  /** The value of unsigned decimal text `int.frac`, split at its first point. */
  function UnsignedValue(s: string): (r: Option<real>)
    ensures r.Some? ==> r.value >= 0.0
  {
    var i := Text.IndexOf(s, '.');
    PointValue(s[..i], if i < |s| then s[i + 1..] else "")
  }

  /** Unsigned text with a character that is not a digit or a point is not a number. */
  lemma UnsignedRejects(s: string, k: nat)
    requires k < |s| && !IsNumberChar(s[k])
    ensures UnsignedValue(s) == None
  {
    var i := Text.IndexOf(s, '.');
    var intPart := s[..i];
    var fracPart := if i < |s| then s[i + 1..] else "";
    if k < i {
      assert intPart[k] == s[k];
      assert !AllDigits(intPart);
    } else if k > i {
      assert fracPart[k - i - 1] == s[k];
      assert !AllDigits(fracPart);
    }
  }

  /** `pd.to_numeric(text, errors='coerce')`: decimal text with an optional sign becomes its
      exact value; anything else, the empty cell included, becomes missing (NaN). */
  function ToNumeric(s: string): (r: Option<real>)
    ensures s == "" ==> r == None
  {
    if |s| > 0 && (s[0] == '-' || s[0] == '+') then
      match UnsignedValue(s[1..])
      case Some(v) => if s[0] == '-' then Some(-v) else Some(v)
      case None => None
    else
      UnsignedValue(s)
  }

  /** Text with a stray character (a letter, a space, a second sign) becomes NaN. */
  lemma ToNumericRejects(s: string, k: nat)
    requires k < |s| && !IsNumberChar(s[k])
    ensures ToNumeric(s) == None
  {
    if s[0] == '-' || s[0] == '+' {
      assert k > 0;
      assert s[1..][k - 1] == s[k];
      UnsignedRejects(s[1..], k - 1);
    } else {
      UnsignedRejects(s, k);
    }
  }

  /** Digit runs hold no decimal point. */
  lemma DigitsNoPoint(d: string)
    requires AllDigits(d)
    ensures Text.IndexOf(d, '.') == |d|
  {
  }

  /** In digits, a point and more text, the first point is the one after the digits. */
  lemma PointAfterDigits(d: string, p: string)
    requires AllDigits(d)
    ensures Text.IndexOf(d + "." + p, '.') == |d|
  {
    var s := d + "." + p;
    var i := Text.IndexOf(s, '.');
    assert s[|d|] == '.';
    assert forall j :: 0 <= j < |d| ==> s[j] == d[j];
  }

  /** Digit runs on both sides of the point give the whole part plus the fraction. */
  lemma PointValueDigits(d: string, p: string)
    requires |d| >= 1 && AllDigits(d) && AllDigits(p)
    ensures PointValue(d, p).Some? && PointValue(d, p).value == DigitsValue(d) as real + FractionValue(p)
  {
  }

  /** Without digits after the point the value is the whole part. */
  lemma PointValueWhole(d: string)
    requires |d| >= 1 && AllDigits(d)
    ensures PointValue(d, "") == Some(DigitsValue(d) as real)
  {
  }

  /** Text without a point is all whole part. */
  lemma UnsignedNoPoint(d: string)
    requires AllDigits(d)
    ensures UnsignedValue(d) == PointValue(d, "")
  {
    DigitsNoPoint(d);
    assert d[..|d|] == d;
  }

  /** Text with a point after a digit run splits at that point. */
  lemma UnsignedSplit(d: string, p: string)
    requires AllDigits(d)
    ensures UnsignedValue(d + "." + p) == PointValue(d, p)
  {
    var s := d + "." + p;
    PointAfterDigits(d, p);
    assert s[..|d|] == d;
    assert s[|d| + 1..] == p;
  }

  /** A digit run without a point reads as its whole value. */
  lemma UnsignedWhole(d: string)
    requires |d| >= 1 && AllDigits(d)
    ensures UnsignedValue(d) == Some(DigitsValue(d) as real)
  {
    UnsignedNoPoint(d);
    PointValueWhole(d);
  }

  /** Digits, a point and digits read as the whole part plus the fraction. */
  lemma UnsignedPointed(d: string, p: string)
    requires |d| >= 1 && AllDigits(d) && AllDigits(p)
    ensures UnsignedValue(d + "." + p).Some?
    ensures UnsignedValue(d + "." + p).value == DigitsValue(d) as real + FractionValue(p)
  {
    UnsignedSplit(d, p);
    PointValueDigits(d, p);
  }

  /** Text that starts with a digit has no sign: it reads as unsigned text. */
  lemma ToNumericUnsigned(s: string)
    requires |s| >= 1 && IsDigit(s[0])
    ensures ToNumeric(s) == UnsignedValue(s)
  {
  }

  /** A leading minus negates the unsigned value and keeps a failure a failure. */
  lemma ToNumericMinus(s: string)
    ensures ToNumeric("-" + s) == match UnsignedValue(s) { case Some(v) => Some(-v) case None => None }
  {
    assert ("-" + s)[1..] == s;
  }

  /** Whole numbers read back exactly: `to_numeric(str(n)) == n`. */
  lemma ToNumericDecimal(n: nat)
    ensures ToNumeric(Decimal(n)) == Some(n as real)
    ensures ToNumeric("-" + Decimal(n)) == Some(-(n as real))
  {
    var d := Decimal(n);
    UnsignedWhole(d);
    ToNumericUnsigned(d);
    ToNumericMinus(d);
  }

  /** Text that starts with a digit run starts with a digit. */
  lemma LeadingDigit(d: string, p: string)
    requires |d| >= 1 && AllDigits(d)
    ensures |d + "." + p| >= 1 && IsDigit((d + "." + p)[0])
  {
    assert (d + "." + p)[0] == d[0];
  }

  /** Unsigned fixed-point text converts to its whole part plus its fraction. */
  lemma ToNumericPointed(d: string, p: string)
    requires |d| >= 1 && AllDigits(d) && AllDigits(p)
    ensures ToNumeric(d + "." + p).Some?
    ensures ToNumeric(d + "." + p).value == DigitsValue(d) as real + FractionValue(p)
  {
    UnsignedPointed(d, p);
    LeadingDigit(d, p);
    ToNumericUnsigned(d + "." + p);
  }

  /** Fixed-point text reads back exactly: `to_numeric("i.f")` with `k` fraction digits is
      `i + f / 10^k`. */
  lemma ToNumericFixedPoint(i: nat, f: nat, k: nat)
    requires f < Pow10(k)
    ensures ToNumeric(Decimal(i) + "." + Padded(f, k)).Some?
    ensures ToNumeric(Decimal(i) + "." + Padded(f, k)).value == i as real + FractionValue(Padded(f, k))
    ensures FractionValue(Padded(f, k)) == f as real / Pow10(k) as real
  {
    ToNumericPointed(Decimal(i), Padded(f, k));
  }
}
