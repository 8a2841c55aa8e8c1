/** Currency rendering of the prompt: `(n / 100).toFixed(2)` applied to an
    integral amount of minor units (cents), done in exact integer arithmetic. */
module Money {
  import opened Wrappers
  import opened Text

  function Abs(n: int): nat {
    if n < 0 then -n else n
  }

  /** The two-digit, zero-padded rendering of a number below 100. */
  function TwoDigits(d: nat): (r: string)
    requires d < 100
    ensures |r| == 2 && AllDigits(r) && DigitsValue(r) == d
  {
    var r := [DigitChar(d / 10), DigitChar(d % 10)];
    assert r[..1] == [r[0]] && r[..1][..0] == [];
    assert DigitsValue(r[..1]) == d / 10;
    r
  }

  /** Characters a rendered amount is made of. */
  predicate AmountChar(c: char) {
    IsDigit(c) || c == '-' || c == '.'
  }

  /** `(n / 100).toFixed(2)`: a minus sign exactly for negative amounts, the
      whole major units as a canonical numeral, a point, and exactly two
      digits of minor units. */
  function FormatMinor(n: int): (r: string)
    ensures |r| >= 4 && r[|r| - 3] == '.'
    ensures r[0] == '-' <==> n < 0
    ensures var w := r[(if n < 0 then 1 else 0)..|r| - 3];
      && |w| > 0 && AllDigits(w) && (w[0] == '0' ==> w == "0")
      && DigitsValue(w) == Abs(n) / 100
    ensures AllDigits(r[|r| - 2..]) && DigitsValue(r[|r| - 2..]) == Abs(n) % 100
    ensures forall i :: 0 <= i < |r| ==> AmountChar(r[i])
  {
    var sign := if n < 0 then "-" else "";
    var whole := NatToString(Abs(n) / 100);
    var frac := TwoDigits(Abs(n) % 100);
    var r := sign + whole + "." + frac;
    assert r[|r| - 2..] == frac;
    assert r[|sign|..|r| - 3] == whole;
    assert n >= 0 ==> r[0] == whole[0];
    r
  }

  /** Reads an amount written as an optional minus sign, one or more digits,
      a point and exactly two digits, back into minor units. */
  function ParseMinor(s: string): Option<int> {
    if |s| < 4 || s[|s| - 3] != '.' then None
    else
      var head := s[..|s| - 3];
      var frac := s[|s| - 2..];
      var neg := |head| > 0 && head[0] == '-';
      var whole := if neg then head[1..] else head;
      if |whole| == 0 || !AllDigits(whole) || !AllDigits(frac) then None
      else
        var m := DigitsValue(whole) * 100 + DigitsValue(frac);
        Some(if neg then -m else m)
  }

  /** Every amount is recovered exactly from its rendering. */
  lemma ParseFormatMinor(n: int)
    ensures ParseMinor(FormatMinor(n)) == Some(n)
  {
    var r := FormatMinor(n);
    var w := r[(if n < 0 then 1 else 0)..|r| - 3];
    var head := r[..|r| - 3];
    assert head[0] == r[0];
    if n < 0 {
      assert head[1..] == w;
    } else {
      assert head == w;
    }
  }

  /** A non-negative amount renders as its whole part, a point and its two
      minor digits. */
  lemma FormatMinorNonNegative(n: nat, whole: string, frac: string)
    requires whole == NatToString(n / 100) && frac == TwoDigits(n % 100)
    ensures FormatMinor(n) == whole + "." + frac
  {
    assert FormatMinor(n) == "" + whole + "." + frac;
  }

  lemma FormatMinorExample12345()
    ensures FormatMinor(12345) == "123.45"
  {
    assert NatToString(123) == "123" by {
      assert NatToString(1) == "1";
      assert NatToString(12) == "12";
    }
    assert TwoDigits(45) == "45";
    FormatMinorNonNegative(12345, "123", "45");
  }

  lemma FormatMinorExampleZero()
    ensures FormatMinor(0) == "0.00"
  {
    assert NatToString(0) == "0";
    assert TwoDigits(0) == "00";
  }

  lemma FormatMinorExampleNegative()
    ensures FormatMinor(-5) == "-0.05"
  {
    assert NatToString(0) == "0";
    assert TwoDigits(5) == "05";
  }
}
