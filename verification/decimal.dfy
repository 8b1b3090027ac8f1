/** Decimal numerals as the panel's text fields accept them: an optional minus
    sign, a non-empty run of digits and an optional fractional part. Their value
    is the exact rational number the text denotes. */
module Decimal {

  datatype Option<T> = None | Some(value: T)

  predicate IsDigit(c: char) { '0' <= c <= '9' }

  /** Every character is a decimal digit (the empty string included). */
  predicate AllDigits(s: string) { forall i :: 0 <= i < |s| ==> IsDigit(s[i]) }

  /** `\d+`: a non-empty run of decimal digits. */
  predicate DigitRun(s: string) { |s| > 0 && AllDigits(s) }

  /** `0+`: a non-empty run of zeros. */
  predicate ZeroRun(s: string) { |s| > 0 && forall i :: 0 <= i < |s| ==> s[i] == '0' }

  function Pow10(k: nat): (r: nat)
    ensures r >= 1
  {
    if k == 0 then 1 else 10 * Pow10(k - 1)
  }

  /** The natural number a digit string denotes, most significant digit first. */
  function NatValue(s: string): (n: nat)
    requires AllDigits(s)
    ensures n < Pow10(|s|)
  {
    if s == [] then 0 else 10 * NatValue(s[..|s| - 1]) + (s[|s| - 1] as int - '0' as int)
  }

  lemma {:induction false} ZerosDenoteZero(s: string)
    requires forall i :: 0 <= i < |s| ==> s[i] == '0'
    ensures AllDigits(s) && NatValue(s) == 0
  {
    if s != [] {
      ZerosDenoteZero(s[..|s| - 1]);
    }
  }

  /** A numeral split into its parts; `fraction == ""` means there is no
      decimal point at all. */
  datatype Decimal = Decimal(negative: bool, whole: string, fraction: string)

  predicate WellFormed(d: Decimal) { DigitRun(d.whole) && AllDigits(d.fraction) }

  /** The text of a numeral without its sign: `whole[.fraction]`. */
  function Magnitude(d: Decimal): string
  {
    d.whole + (if d.fraction == "" then "" else "." + d.fraction)
  }

  /** The text of a numeral: `[-]whole[.fraction]`. */
  function Text(d: Decimal): string
  {
    (if d.negative then "-" else "") + Magnitude(d)
  }

  /** The exact value of a numeral (what parseFloat would return, without rounding). */
  function Value(d: Decimal): real
    requires WellFormed(d)
  {
    var magnitude := NatValue(d.whole) as real + NatValue(d.fraction) as real / Pow10(|d.fraction|) as real;
    if d.negative then -magnitude else magnitude
  }

  /** Index of the first '.' in `t`, or `|t|` when there is none. */
  function DotIndex(t: string): (k: nat)
    ensures k <= |t|
    ensures k < |t| ==> t[k] == '.'
    ensures forall i :: 0 <= i < k ==> t[i] != '.'
  {
    if t == [] then 0 else if t[0] == '.' then 0 else 1 + DotIndex(t[1..])
  }

  /** DotIndex is characterised by its ensures: the first '.' or the end. */
  lemma DotIndexAt(t: string, k: nat)
    requires k <= |t| && (k < |t| ==> t[k] == '.')
    requires forall i :: 0 <= i < k ==> t[i] != '.'
    ensures DotIndex(t) == k
  {
  }

  /** Reads `digits[.digits]`, the part after an optional sign. */
  function ParseMagnitude(negative: bool, t: string): (r: Option<Decimal>)
    ensures r.Some? ==> WellFormed(r.value) && r.value.negative == negative && Magnitude(r.value) == t
  {
    var k := DotIndex(t);
    if k == |t| then
      if DigitRun(t) then Some(Decimal(negative, t, "")) else None
    else if DigitRun(t[..k]) && DigitRun(t[k + 1..]) then
      assert t == t[..k] + "." + t[k + 1..];
      Some(Decimal(negative, t[..k], t[k + 1..]))
    else
      None
  }

  /** Reads `[-]digits[.digits]`; anything else is None. */
  function ParseDecimal(s: string): (r: Option<Decimal>)
    ensures r.Some? ==> WellFormed(r.value) && Text(r.value) == s
  {
    if |s| > 0 && s[0] == '-' then
      assert s == "-" + s[1..];
      ParseMagnitude(true, s[1..])
    else
      ParseMagnitude(false, s)
  }

  lemma ParseMagnitudeText(d: Decimal)
    requires WellFormed(d)
    ensures ParseMagnitude(d.negative, Magnitude(d)) == Some(d)
  {
    var t := Magnitude(d);
    assert t[..|d.whole|] == d.whole;
    assert forall i :: 0 <= i < |d.whole| ==> t[i] == d.whole[i];
    DotIndexAt(t, |d.whole|);
    if d.fraction != "" {
      assert t[|d.whole| + 1..] == d.fraction;
    }
  }

  /** The parser reads back every well-formed numeral: together with the
      ensures of ParseDecimal, it accepts exactly the texts of well-formed
      numerals, and Text and ParseDecimal are inverse to each other. */
  lemma ParseText(d: Decimal)
    requires WellFormed(d)
    ensures ParseDecimal(Text(d)) == Some(d)
  {
    var s, t := Text(d), Magnitude(d);
    ParseMagnitudeText(d);
    assert t[0] == d.whole[0];
    if d.negative {
      assert s[1..] == t;
    } else {
      assert s == t;
    }
  }

  lemma NonNegative(d: Decimal)
    requires WellFormed(d) && !d.negative
    ensures Value(d) >= 0.0
  {
    FractionBelowOne(d.fraction);
  }

  /** A fractional part contributes strictly less than one. */
  lemma FractionBelowOne(f: string)
    requires AllDigits(f)
    ensures 0.0 <= NatValue(f) as real / Pow10(|f|) as real < 1.0
  {
    var x, y := NatValue(f) as real, Pow10(|f|) as real;
    assert 0.0 <= x < y;
    QuotientBelowOne(x, y);
  }

  lemma QuotientBelowOne(x: real, y: real)
    requires 0.0 <= x < y
    ensures 0.0 <= x / y < 1.0
  {
    var q := x / y;
    assert x == q * y;
  }
}
