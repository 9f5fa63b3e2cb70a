/** Exact decimals as github.com/ericlagergren/decimal keeps them when nothing
    is rounded: an integer coefficient and a scale, with value
    coefficient × 10^-scale. `decimal.New(m, s)` is `Dec(m, s)`; results are not
    normalised, so 44.55 × 3.33 is Dec(1483515, 4). */
module Decimal {
  import opened Wrappers
  import opened Text

  datatype Dec = Dec(mantissa: int, scale: nat)

  /** The zero a fresh `new(decimal.Big)` holds. */
  const Zero := Dec(0, 0)

  /** The number a decimal denotes. */
  function Value(d: Dec): real
  {
    d.mantissa as real / Pow10(d.scale) as real
  }

  function Abs(m: int): nat { if m < 0 then -m else m }

  function Max(a: nat, b: nat): nat { if a < b then b else a }

  lemma CastMul(x: int, y: int)
    ensures (x * y) as real == (x as real) * (y as real)
  {
  }

  lemma FractionProduct(x: real, y: real, p: real, q: real)
    requires p > 0.0 && q > 0.0
    ensures (x / p) * (y / q) == (x * y) / (p * q)
  {
  }

  lemma FractionScale(x: real, p: real, c: real)
    requires p > 0.0 && c > 0.0
    ensures (x * c) / (p * c) == x / p
  {
  }

  lemma FractionSum(x: real, y: real, p: real)
    requires p > 0.0
    ensures (x + y) / p == x / p + y / p
  {
  }

  /** Multiplying the coefficient by 10^k while adding k to the scale keeps the value. */
  lemma Rescale(m: int, s: nat, k: nat)
    ensures Value(Dec(m * Pow10(k), s + k)) == Value(Dec(m, s))
  {
    Pow10Add(s, k);
    CastMul(m, Pow10(k));
    CastMul(Pow10(s), Pow10(k));
    FractionScale(m as real, Pow10(s) as real, Pow10(k) as real);
  }

  /** decimal.New(n, 0): an integer. */
  function FromInt(n: int): (d: Dec)
    ensures Value(d) == n as real
  {
    Dec(n, 0)
  }

  /** Big.Mul: coefficients multiply and scales add, so no digit is lost. */
  function Mul(a: Dec, b: Dec): (r: Dec)
    ensures Value(r) == Value(a) * Value(b)
    ensures r.scale == a.scale + b.scale
  {
    MulValue(a, b);
    Dec(a.mantissa * b.mantissa, a.scale + b.scale)
  }

  lemma MulValue(a: Dec, b: Dec)
    ensures Value(Dec(a.mantissa * b.mantissa, a.scale + b.scale)) == Value(a) * Value(b)
  {
    Pow10Add(a.scale, b.scale);
    QuotientProduct(a.mantissa, b.mantissa, Pow10(a.scale), Pow10(b.scale));
  }

  lemma QuotientProduct(x: int, y: int, p: nat, q: nat)
    requires p > 0 && q > 0
    ensures (x * y) as real / (p * q) as real == (x as real / p as real) * (y as real / q as real)
  {
    CastMul(x, y);
    CastMul(p, q);
    FractionProduct(x as real, y as real, p as real, q as real);
  }

  lemma AddValue(a: Dec, b: Dec, s: nat)
    requires a.scale <= s && b.scale <= s
    ensures Value(Dec(a.mantissa * Pow10(s - a.scale) + b.mantissa * Pow10(s - b.scale), s)) == Value(a) + Value(b)
  {
    Rescale(a.mantissa, a.scale, s - a.scale);
    Rescale(b.mantissa, b.scale, s - b.scale);
    var x, y := a.mantissa * Pow10(s - a.scale), b.mantissa * Pow10(s - b.scale);
    FractionSum(x as real, y as real, Pow10(s) as real);
  }

  /** Big.Add: both operands are brought to the larger scale, so no digit is lost. */
  function Add(a: Dec, b: Dec): (r: Dec)
    ensures Value(r) == Value(a) + Value(b)
    ensures r.scale == Max(a.scale, b.scale)
  {
    var s := Max(a.scale, b.scale);
    AddValue(a, b, s);
    Dec(a.mantissa * Pow10(s - a.scale) + b.mantissa * Pow10(s - b.scale), s)
  }

  // ---------------------------------------------------------------------------
  // Text form

  /** The coefficient's digits, left-padded with zeros to more than `scale` digits. */
  function PaddedDigits(d: Dec): (s: string)
    ensures |s| > d.scale && AllDigits(s) && DigitsValue(s) == Abs(d.mantissa)
  {
    var digits := NatToString(Abs(d.mantissa));
    var pad := if |digits| <= d.scale then d.scale + 1 - |digits| else 0;
    DigitsValueAppend(Zeros(pad), digits);
    Zeros(pad) + digits
  }

  /** Big.String in plain notation: a minus sign for a negative value, the
      integer digits, and, when the scale is positive, a point followed by
      exactly `scale` fraction digits ("44.55", "0.05", "455.51", "0"). */
  function Format(d: Dec): string
  {
    var p := PaddedDigits(d);
    Signed(d.mantissa < 0, Unsigned(p[..|p| - d.scale], p[|p| - d.scale..]))
  }

  /** Zero is written "0". */
  lemma FormatZero()
    ensures Format(Zero) == "0"
  {
    assert NatToString(0) == "0";
    assert Zeros(0) == "";
    var p := PaddedDigits(Zero);
    assert p == "0";
    assert p[..|p|] == "0" && p[|p|..] == "";
  }

  function Signed(neg: bool, body: string): string
  {
    if neg then "-" + body else body
  }

  /** Integer digits, and a point before the fraction digits when there are any. */
  function Unsigned(whole: string, frac: string): string
  {
    if |frac| > 0 then whole + "." + frac else whole
  }

  /** The first position of `c` in `s`, or |s| when it does not occur. */
  function IndexOf(s: string, c: char): (i: nat)
    ensures i <= |s|
    ensures forall k :: 0 <= k < i ==> s[k] != c
    ensures i < |s| ==> s[i] == c
  {
    if |s| == 0 then 0
    else if s[0] == c then 0
    else 1 + IndexOf(s[1..], c)
  }

  /** Big.SetString on plain notation: an optional sign, one or more digits,
      and optionally a point followed by one or more digits. The scale is the
      number of fraction digits, so "7993.60" is Dec(799360, 2). */
  function Parse(s: string): (r: Option<Dec>)
    ensures r.Some? && r.value.mantissa < 0 ==> |s| > 0 && s[0] == '-'
  {
    if |s| > 0 && s[0] == '-' then
      match ParseUnsigned(s[1..])
      case Some(d) => Some(Dec(-d.mantissa, d.scale))
      case None => None
    else if |s| > 0 && s[0] == '+' then ParseUnsigned(s[1..])
    else ParseUnsigned(s)
  }

  /** Digits, then optionally a point and more digits, without a sign. */
  function ParseUnsigned(u: string): (r: Option<Dec>)
    ensures r.Some? ==> r.value.mantissa >= 0
  {
    var dot := IndexOf(u, '.');
    var whole := u[..dot];
    var frac := if dot < |u| then u[dot + 1..] else "";
    if |whole| == 0 || !AllDigits(whole) || !AllDigits(frac) || (dot < |u| && |frac| == 0) then None
    else
      AllDigitsAppend(whole, frac);
      Some(Dec(DigitsValue(whole + frac), |frac|))
  }

  lemma IndexOfDigits(whole: string, rest: string)
    requires AllDigits(whole)
    requires |rest| == 0 || rest[0] == '.'
    ensures IndexOf(whole + rest, '.') == |whole|
  {
    if |rest| > 0 {
      assert (whole + rest)[|whole|] == '.';
    }
  }

  /** Reading back integer digits and optional fraction digits. */
  lemma ParseUnsignedParts(whole: string, frac: string)
    requires |whole| > 0 && AllDigits(whole) && AllDigits(frac)
    ensures AllDigits(whole + frac)
    ensures ParseUnsigned(Unsigned(whole, frac)) == Some(Dec(DigitsValue(whole + frac), |frac|))
  {
    AllDigitsAppend(whole, frac);
    var tail := if |frac| > 0 then "." + frac else "";
    var u := whole + tail;
    assert u == Unsigned(whole, frac);
    IndexOfDigits(whole, tail);
    assert u[..|whole|] == whole;
    if |frac| > 0 {
      assert u[|whole| + 1..] == frac;
    } else {
      assert whole + frac == whole;
    }
  }

  /** Every decimal survives being written out and read back: prices and
      multipliers cross the message boundary as text without losing a digit
      or their scale. */
  lemma ParseSigned(neg: bool, body: string, d: Dec)
    requires |body| > 0 && IsDigit(body[0])
    requires ParseUnsigned(body) == Some(d)
    ensures Parse(Signed(neg, body)) == Some(if neg then Dec(-d.mantissa, d.scale) else d)
  {
    if neg {
      assert ("-" + body)[1..] == body;
    }
  }

  lemma ParseFormat(d: Dec)
    ensures Parse(Format(d)) == Some(d)
  {
    var p := PaddedDigits(d);
    var k := |p| - d.scale;
    SplitDigits(p, k);
    var whole, frac := p[..k], p[k..];
    assert |frac| == d.scale;
    ParseUnsignedParts(whole, frac);
    var body := Unsigned(whole, frac);
    assert ParseUnsigned(body) == Some(Dec(Abs(d.mantissa), d.scale));
    UnsignedFirst(whole, frac);
    assert Format(d) == Signed(d.mantissa < 0, body);
    ParseSigned(d.mantissa < 0, body, Dec(Abs(d.mantissa), d.scale));
  }

  /** Cutting a string of digits gives two strings of digits. */
  lemma SplitDigits(p: string, k: nat)
    requires 0 < k <= |p| && AllDigits(p)
    ensures |p[..k]| > 0 && AllDigits(p[..k]) && AllDigits(p[k..]) && p[..k] + p[k..] == p
  {
    assert forall i :: 0 <= i < k ==> p[..k][i] == p[i];
    assert forall i :: 0 <= i < |p| - k ==> p[k..][i] == p[k + i];
  }

  lemma UnsignedFirst(whole: string, frac: string)
    requires |whole| > 0
    ensures |Unsigned(whole, frac)| > 0 && Unsigned(whole, frac)[0] == whole[0]
  {
  }
}
