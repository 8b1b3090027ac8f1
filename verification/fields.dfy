/** The text grammars of the Particle Swarm panel's input fields and what a
    field holds after an edit: the parsed number when the text matches, the raw
    text otherwise. */
module Fields {
  import opened Decimal

  /** A field's value: `Num` after a successful parse, `Raw` keeps the text
      as typed so that it can be shown again. */
  datatype Entry<T> = Num(value: T) | Raw(text: string)

  // ---------------------------------------------------------------------------
  // Bounds: /^[-]?\d+(\.)?\d+$/ or /^[-]?\d+$/

  /** `\d+(\.)?\d+`: two digit runs, optionally separated by one '.'. */
  predicate RunsAroundPoint(t: string)
  {
    exists k :: 0 < k < |t| && DigitRun(t[..k]) && (DigitRun(t[k..]) || (t[k] == '.' && DigitRun(t[k + 1..])))
  }

  /** `^[-]?\d+(\.)?\d+$` */
  predicate PointedPattern(s: string)
  {
    RunsAroundPoint(s) || (|s| > 0 && s[0] == '-' && RunsAroundPoint(s[1..]))
  }

  /** `^[-]?\d+$` */
  predicate IntegerPattern(s: string)
  {
    DigitRun(s) || (|s| > 0 && s[0] == '-' && DigitRun(s[1..]))
  }

  /** The test the bound handlers apply to the typed text. */
  predicate IsBoundText(s: string)
  {
    PointedPattern(s) || IntegerPattern(s)
  }

  lemma RunsAroundPointIsMagnitude(negative: bool, t: string)
    requires RunsAroundPoint(t)
    ensures ParseMagnitude(negative, t).Some?
  {
    var k :| 0 < k < |t| && DigitRun(t[..k]) && (DigitRun(t[k..]) || (t[k] == '.' && DigitRun(t[k + 1..])));
    if DigitRun(t[k..]) {
      assert forall i :: 0 <= i < |t| ==> t[i] == if i < k then t[..k][i] else t[k..][i - k];
      DotIndexAt(t, |t|);
    } else {
      assert forall i :: 0 <= i < k ==> t[i] == t[..k][i];
      DotIndexAt(t, k);
    }
  }

  lemma DigitRunIsMagnitude(negative: bool, t: string)
    requires DigitRun(t)
    ensures ParseMagnitude(negative, t).Some?
  {
    DotIndexAt(t, |t|);
  }

  lemma MagnitudeIsRunsOrInteger(negative: bool, t: string)
    requires ParseMagnitude(negative, t).Some?
    ensures RunsAroundPoint(t) || DigitRun(t)
  {
    var k := DotIndex(t);
    if k < |t| {
      assert 0 < k < |t| && DigitRun(t[..k]) && t[k] == '.' && DigitRun(t[k + 1..]);
    }
  }

  /** `\d+(\.)?\d+` or `\d+` is exactly what ParseMagnitude reads. */
  lemma MagnitudeAccepts(negative: bool, t: string)
    ensures ParseMagnitude(negative, t).Some? <==> RunsAroundPoint(t) || DigitRun(t)
  {
    if ParseMagnitude(negative, t).Some? {
      MagnitudeIsRunsOrInteger(negative, t);
    } else if RunsAroundPoint(t) {
      RunsAroundPointIsMagnitude(negative, t);
    } else if DigitRun(t) {
      DigitRunIsMagnitude(negative, t);
    }
  }

  lemma NoRunsAfterMinus(s: string)
    requires |s| > 0 && s[0] == '-'
    ensures !DigitRun(s) && !RunsAroundPoint(s)
  {
    assert !IsDigit(s[0]);
    forall k | 0 < k < |s|
      ensures !DigitRun(s[..k])
    {
      assert s[..k][0] == s[0];
    }
  }

  /** The two bound regexes together accept exactly an optional '-', a
      non-empty digit run, then optionally '.' and a non-empty digit run. */
  lemma BoundTextIsDecimal(s: string)
    ensures IsBoundText(s) <==> ParseDecimal(s).Some?
  {
    if |s| > 0 && s[0] == '-' {
      NoRunsAfterMinus(s);
      MagnitudeAccepts(true, s[1..]);
    } else {
      MagnitudeAccepts(false, s);
    }
  }

  /** What a bound field holds after an edit (`processLowerBound`,
      `processUpperBound`): the exact number the text denotes, or the text. */
  function ReadBound(text: string): (e: Entry<real>)
    ensures e.Num? <==> ParseDecimal(text).Some?
    ensures e.Num? ==> e.value == Value(ParseDecimal(text).value)
    ensures e.Raw? ==> e.text == text
  {
    BoundTextIsDecimal(text);
    if IsBoundText(text) then Num(Value(ParseDecimal(text).value)) else Raw(text)
  }

  lemma BoundTextAccepted()
    ensures IsBoundText("-12") && IsBoundText("3.25") && IsBoundText("-0.5") && IsBoundText("7")
  {
    assert DigitRun("7");
    assert DigitRun("12") && "-12"[1..] == "12";
    assert "3.25"[..1] == "3" && "3.25"[2..] == "25" && RunsAroundPoint("3.25");
    assert "0.5"[..1] == "0" && "0.5"[2..] == "5" && RunsAroundPoint("0.5") && "-0.5"[1..] == "0.5";
  }

  lemma BoundTextRefusedAroundPoint()
    ensures !IsBoundText("1.") && !IsBoundText(".5")
  {
    BoundTextIsDecimal("1.");
    BoundTextIsDecimal(".5");
    assert DotIndex("1.") == 1 by { DotIndexAt("1.", 1); }
    assert DotIndex(".5") == 0 by { DotIndexAt(".5", 0); }
  }

  lemma BoundTextRefusedOthers()
    ensures !IsBoundText("+1") && !IsBoundText("1e3") && !IsBoundText("") && !IsBoundText("-")
  {
    BoundTextIsDecimal("+1");
    BoundTextIsDecimal("1e3");
    BoundTextIsDecimal("");
    BoundTextIsDecimal("-");
    assert DotIndex("+1") == 2 by { DotIndexAt("+1", 2); }
    assert DotIndex("1e3") == 3 by { DotIndexAt("1e3", 3); }
    assert DotIndex("") == 0;
    assert "-"[1..] == "";
  }

  // ---------------------------------------------------------------------------
  // Population size: /^\d+$/

  /** The test `processPopulationSize` applies: a non-empty digit string. */
  predicate IsCountText(s: string)
  {
    DigitRun(s)
  }

  /** What the population-size field holds after an edit: parseInt of a digit
      string is the number it denotes in base ten. */
  function ReadCount(text: string): (e: Entry<nat>)
    ensures e.Num? <==> IsCountText(text)
    ensures e.Num? ==> ParseDecimal(text) == Some(Decimal(false, text, "")) && e.value as real == Value(ParseDecimal(text).value)
    ensures e.Raw? ==> e.text == text
  {
    if IsCountText(text) then
      assert text[0] != '-';
      DotIndexAt(text, |text|);
      Num(NatValue(text))
    else
      Raw(text)
  }

  lemma CountTextAccepted()
    ensures ReadCount("0") == Num(0) && ReadCount("007") == Num(7) && ReadCount("100") == Num(100)
  {
    assert "007"[..2] == "00" && "00"[..1] == "0";
    assert "100"[..2] == "10" && "10"[..1] == "1";
  }

  lemma CountTextRefused()
    ensures ReadCount("") == Raw("") && ReadCount("-1") == Raw("-1") && ReadCount("1.0") == Raw("1.0")
  {
    assert !IsDigit("-1"[0]) && !IsDigit("1.0"[1]);
  }

  // ---------------------------------------------------------------------------
  // Weights w, c1, c2: /^[0]+(\.)?\d+$/ or /^[1]{1}(\.){1}[0]+$/ or /^[1]{1}$/

  /** `^[0]+(\.)?\d+$`: a run of zeros, an optional '.', a digit run. */
  predicate ZeroLedPattern(s: string)
  {
    exists k :: 0 < k < |s| && ZeroRun(s[..k]) && (DigitRun(s[k..]) || (s[k] == '.' && DigitRun(s[k + 1..])))
  }

  /** `^[1]{1}(\.){1}[0]+$`: "1." followed by one or more zeros. */
  predicate OnePointZerosPattern(s: string)
  {
    |s| >= 3 && s[0] == '1' && s[1] == '.' && ZeroRun(s[2..])
  }

  /** The test `processW`, `processC1` and `processC2` apply. */
  predicate IsWeightText(s: string)
  {
    ZeroLedPattern(s) || OnePointZerosPattern(s) || s == "1"
  }

  lemma OneIsDecimal()
    ensures ParseDecimal("1") == Some(Decimal(false, "1", "")) && Value(Decimal(false, "1", "")) == 1.0
  {
    DotIndexAt("1", 1);
  }

  lemma OnePointZerosValue(t: string)
    requires ZeroRun(t)
    ensures WellFormed(Decimal(false, "1", t)) && Value(Decimal(false, "1", t)) == 1.0
  {
    ZerosDenoteZero(t);
    assert NatValue("1") == 1 by { assert "1"[..0] == ""; }
    assert 0 as real / Pow10(|t|) as real == 0.0;
  }

  lemma OnePointZerosIsDecimal(s: string)
    requires OnePointZerosPattern(s)
    ensures ParseDecimal(s) == Some(Decimal(false, "1", s[2..]))
    ensures Value(Decimal(false, "1", s[2..])) == 1.0
  {
    var t := s[2..];
    OnePointZerosValue(t);
    DotIndexAt(s, 1);
    assert s[..1] == "1" && s[1 + 1..] == t;
    assert ParseMagnitude(false, s) == Some(Decimal(false, "1", t));
  }

  /** `0+\d+`: a digit string led by a zero reads as a whole number. */
  lemma ZerosThenDigitsIsDecimal(s: string, k: nat)
    requires 0 < k < |s| && ZeroRun(s[..k]) && DigitRun(s[k..])
    ensures '.' !in s && ParseDecimal(s) == Some(Decimal(false, s, ""))
  {
    assert s[0] == s[..k][0];
    assert forall i :: 0 <= i < |s| ==> s[i] == if i < k then s[..k][i] else s[k..][i - k];
    DotIndexAt(s, |s|);
  }

  /** `0+\.\d+`: zeros, a point and a fraction read as a value in [0, 1). */
  lemma ZerosPointDigitsIsDecimal(s: string, k: nat)
    requires 0 < k < |s| && ZeroRun(s[..k]) && s[k] == '.' && DigitRun(s[k + 1..])
    ensures ParseDecimal(s) == Some(Decimal(false, s[..k], s[k + 1..]))
    ensures '.' in s && 0.0 <= Value(Decimal(false, s[..k], s[k + 1..])) < 1.0
  {
    assert s[0] == s[..k][0];
    assert forall i :: 0 <= i < k ==> s[i] == s[..k][i];
    DotIndexAt(s, k);
    ZerosDenoteZero(s[..k]);
    FractionBelowOne(s[k + 1..]);
  }

  /** Every weight text is an unsigned numeral; with a '.' in it, its value lies
      in [0, 1]; without one it is "1" or a digit string led by a zero. */
  lemma WeightTextIsDecimal(s: string)
    requires IsWeightText(s)
    ensures ParseDecimal(s).Some? && !ParseDecimal(s).value.negative
    ensures 0.0 <= Value(ParseDecimal(s).value)
    ensures '.' in s ==> Value(ParseDecimal(s).value) <= 1.0
    ensures '.' !in s ==> ParseDecimal(s) == Some(Decimal(false, s, ""))
  {
    if s == "1" {
      OneIsDecimal();
    } else if OnePointZerosPattern(s) {
      OnePointZerosIsDecimal(s);
    } else {
      var k :| 0 < k < |s| && ZeroRun(s[..k]) && (DigitRun(s[k..]) || (s[k] == '.' && DigitRun(s[k + 1..])));
      if DigitRun(s[k..]) {
        ZerosThenDigitsIsDecimal(s, k);
        NonNegative(ParseDecimal(s).value);
      } else {
        ZerosPointDigitsIsDecimal(s, k);
      }
    }
  }

  /** What a weight field holds after an edit. */
  function ReadWeight(text: string): (e: Entry<real>)
    ensures e.Num? <==> IsWeightText(text)
    ensures e.Num? ==> ParseDecimal(text).Some? && e.value == Value(ParseDecimal(text).value)
    ensures e.Num? ==> 0.0 <= e.value
    ensures e.Num? && '.' in text ==> e.value <= 1.0
    ensures e.Raw? ==> e.text == text
  {
    if IsWeightText(text) then
      WeightTextIsDecimal(text);
      Num(Value(ParseDecimal(text).value))
    else
      Raw(text)
  }

  /** "0" and "1." are refused; so are ".5" and "2". */
  lemma WeightTextRefusals()
    ensures !IsWeightText("0") && !IsWeightText("1.") && !IsWeightText(".5") && !IsWeightText("2")
  {
    assert "1."[..1] == "1";
    assert !ZeroLedPattern(".5") by {
      forall k | 0 < k < 2
        ensures !ZeroRun(".5"[..k])
      {
        assert ".5"[..k][0] == '.';
      }
    }
  }

  /** "1" and "1.00" are accepted and hold 1. */
  lemma WeightOneAccepted()
    ensures ReadWeight("1") == Num(1.0) && ReadWeight("1.00") == Num(1.0)
  {
    OneIsDecimal();
    assert ZeroRun("1.00"[2..]);
    OnePointZerosIsDecimal("1.00");
  }

  lemma HalfValue()
    ensures WellFormed(Decimal(false, "0", "5")) && Value(Decimal(false, "0", "5")) == 0.5
  {
    assert "5"[..0] == "" && NatValue("5") == 5 && Pow10(1) == 10;
    assert "0"[..0] == "" && NatValue("0") == 0;
  }

  /** "0.5" is accepted and holds one half. */
  lemma WeightHalfAccepted()
    ensures ReadWeight("0.5") == Num(0.5)
  {
    assert "0.5"[..1] == "0" && "0.5"[2..] == "5";
    assert ZeroRun("0.5"[..1]) && "0.5"[1] == '.' && DigitRun("0.5"[2..]);
    assert IsWeightText("0.5");
    ZerosPointDigitsIsDecimal("0.5", 1);
    HalfValue();
  }

  /** "00" is accepted and holds 0, although "0" is refused. */
  lemma WeightDoubleZeroAccepted()
    ensures ReadWeight("00") == Num(0.0)
  {
    assert ZeroRun("00"[..1]) && DigitRun("00"[1..]);
    ZerosThenDigitsIsDecimal("00", 1);
    ZerosDenoteZero("00");
  }

  /** A leading zero lets an integer through: "05" is accepted and holds 5,
      which lies outside [0, 1]. */
  lemma LeadingZeroWeight()
    ensures ReadWeight("05") == Num(5.0)
  {
    assert ZeroRun("05"[..1]) && DigitRun("05"[1..]);
    ZerosThenDigitsIsDecimal("05", 1);
    assert "05"[..1] == "0";
  }
}
