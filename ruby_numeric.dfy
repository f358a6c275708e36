/**
 * The two Ruby string conversions the provider relies on: `String#to_i`
 * (the OS major version is `node['platform_version'].to_i`) and the
 * comparison `String#to_f < 2.4` (the httpd version selects the legacy
 * 2.2 layout or the 2.4 layout).
 *
 * Both conversions read the longest leading numeral and ignore the rest of
 * the string; a string with no leading numeral reads as zero. `to_f` is
 * modelled by the exact rational value of its leading decimal numeral, so
 * the threshold test is decided on the digits, never with rounding.
 */
module RubyNumeric {

  import opened Wrappers

  predicate IsDigit(c: char) { '0' <= c <= '9' }

  /** The characters Ruby skips before a numeral (C's `isspace`). */
  predicate IsSpace(c: char) {
    c == ' ' || c == '\t' || c == '\n' || c == '\r' || c == '\U{000B}' || c == '\U{000C}'
  }

  predicate AllDigits(s: string) { forall i | 0 <= i < |s| :: IsDigit(s[i]) }

  function DigitValue(c: char): (d: nat)
    requires IsDigit(c)
    ensures d <= 9
  {
    c as int - '0' as int
  }

  /** `s` without its leading whitespace. */
  function SkipSpace(s: string): (t: string)
  {
    if s != [] && IsSpace(s[0]) then SkipSpace(s[1..]) else s
  }

  /** An optional sign: whether it was `-`, and what follows it. */
  function SplitSign(s: string): (r: (bool, string))
    ensures r.1 == (if s != [] && (s[0] == '+' || s[0] == '-') then s[1..] else s)
    ensures r.0 <==> s != [] && s[0] == '-'
  {
    if s != [] && (s[0] == '+' || s[0] == '-') then (s[0] == '-', s[1..]) else (false, s)
  }

  /** The longest prefix of `s` made of decimal digits. */
  function LeadingDigits(s: string): (d: string)
    ensures |d| <= |s| && d == s[..|d|]
    ensures AllDigits(d)
    ensures |d| == |s| || !IsDigit(s[|d|])
  {
    if s != [] && IsDigit(s[0]) then [s[0]] + LeadingDigits(s[1..]) else []
  }

  /** The value of a digit string, most significant digit first. */
  function DigitsValue(d: string): nat
    requires AllDigits(d)
  {
    if d == [] then 0 else 10 * DigitsValue(d[..|d| - 1]) + DigitValue(d[|d| - 1])
  }

  /** `String#to_i` in base 10. */
  function ToI(s: string): int {
    var (negative, rest) := SplitSign(SkipSpace(s));
    var n: int := DigitsValue(LeadingDigits(rest));
    if negative then -n else n
  }

  /** A decimal numeral: sign, digits before the point, digits after it. */
  datatype Numeral = Numeral(negative: bool, whole: string, fraction: string)
  {
    ghost predicate Valid() { AllDigits(whole) && AllDigits(fraction) }
  }

  /**
   * The leading numeral that `String#to_f` reads: optional whitespace, an
   * optional sign, digits, and a fraction only when the point is followed by
   * a digit (`"2."` reads as 2, `"2..4"` as 2).
   */
  function LeadingNumeral(s: string): (n: Numeral)
    ensures n.Valid()
  {
    var (negative, rest) := SplitSign(SkipSpace(s));
    var whole := LeadingDigits(rest);
    var after := rest[|whole|..];
    var fraction := if |after| >= 2 && after[0] == '.' && IsDigit(after[1])
                    then LeadingDigits(after[1..]) else [];
    Numeral(negative, whole, fraction)
  }

  /** The value of the digits after the decimal point: 0.d1 d2 d3 ... */
  function FractionValue(f: string): real
    requires AllDigits(f)
  {
    if f == [] then 0.0 else (DigitValue(f[0]) as real + FractionValue(f[1..])) / 10.0
  }

  /** The exact value of a numeral. */
  function NumeralValue(n: Numeral): real
    requires n.Valid()
  {
    var m := DigitsValue(n.whole) as real + FractionValue(n.fraction);
    if n.negative then -m else m
  }

  /** `String#to_f`, with exact arithmetic in place of IEEE-754 doubles. */
  function ToF(s: string): real {
    NumeralValue(LeadingNumeral(s))
  }

  /**
   * `s.to_f < 2.4`, decided on the digits: a negative numeral, a whole part
   * below 2, or a whole part of 2 whose first fraction digit is missing or
   * below 4. "2.10" reads as 2.1 and so is below 2.4.
   */
  predicate BelowTwoFour(s: string) {
    var n := LeadingNumeral(s);
    n.negative
    || DigitsValue(n.whole) < 2
    || (DigitsValue(n.whole) == 2 && (n.fraction == [] || n.fraction[0] < '4'))
  }

  /** `nil.to_f` is 0.0, which is below 2.4. */
  predicate VersionBelowTwoFour(v: Option<string>) {
    match v
    case None => true
    case Some(s) => BelowTwoFour(s)
  }

  lemma {:induction false} FractionBounds(f: string)
    requires AllDigits(f)
    ensures 0.0 <= FractionValue(f) < 1.0
    ensures f != [] ==>
      DigitValue(f[0]) as real / 10.0 <= FractionValue(f) < (DigitValue(f[0]) as real + 1.0) / 10.0
  {
    if f != [] {
      FractionBounds(f[1..]);
    }
  }

  /** The digit-level test agrees with the exact comparison of `to_f` against 2.4. */
  lemma BelowTwoFourExact(s: string)
    ensures BelowTwoFour(s) <==> ToF(s) < 2.4
  {
    var n := LeadingNumeral(s);
    FractionBounds(n.fraction);
  }

  /** A digit string followed by a non-digit reads, under `LeadingDigits`, as exactly itself. */
  lemma {:induction false} LeadingDigitsOfNumeral(w: string, rest: string)
    requires AllDigits(w)
    requires rest == [] || !IsDigit(rest[0])
    ensures LeadingDigits(w + rest) == w
  {
    if w != [] {
      assert (w + rest)[1..] == w[1..] + rest;
      LeadingDigitsOfNumeral(w[1..], rest);
    }
  }

  /**
   * `to_i` of a string that starts with a digit string returns the value of
   * exactly those digits, whatever follows ("2014.09" reads as 2014).
   */
  lemma ToIReadsLeadingInteger(w: string, rest: string)
    requires w != [] && AllDigits(w)
    requires rest == [] || !IsDigit(rest[0])
    ensures ToI(w + rest) == DigitsValue(w)
  {
    var s := w + rest;
    assert SkipSpace(s) == s && SplitSign(s) == (false, s) by {
      assert s[0] == w[0];
    }
    assert LeadingDigits(s) == w by { LeadingDigitsOfNumeral(w, rest); }
  }

  /**
   * A version written `<whole>.<fraction><rest>`, where `rest` does not go on
   * with a digit, reads as the numeral `<whole>.<fraction>`.
   */
  lemma ReadsDecimal(whole: string, fraction: string, rest: string)
    requires whole != [] && AllDigits(whole)
    requires fraction != [] && AllDigits(fraction)
    requires rest == [] || !IsDigit(rest[0])
    ensures LeadingNumeral(whole + "." + fraction + rest) == Numeral(false, whole, fraction)
  {
    var tail := "." + fraction + rest;
    var s := whole + tail;
    assert s == whole + "." + fraction + rest;
    assert SkipSpace(s) == s && SplitSign(s) == (false, s) by {
      assert s[0] == whole[0];
    }
    assert LeadingDigits(s) == whole by {
      LeadingDigitsOfNumeral(whole, tail);
    }
    assert s[|whole|..] == tail;
    assert tail[0] == '.' && IsDigit(tail[1]) && LeadingDigits(tail[1..]) == fraction by {
      assert tail[1..] == fraction + rest;
      assert tail[1] == fraction[0];
      LeadingDigitsOfNumeral(fraction, rest);
    }
  }

  /** 2.4 and 2.4.6 select the 2.4 layout. */
  lemma ModernVersions()
    ensures !BelowTwoFour("2.4") && !BelowTwoFour("2.4.6")
  {
    assert DigitsValue("2") == 2;
    ReadsDecimal("2", "4", "");
    assert "2.4" == "2" + "." + "4" + "";
    ReadsDecimal("2", "4", ".6");
    assert "2.4.6" == "2" + "." + "4" + ".6";
  }

  /** 2.2.15 and 2.3.99 select the legacy layout. */
  lemma LegacyVersions()
    ensures BelowTwoFour("2.2.15") && BelowTwoFour("2.3.99")
  {
    assert DigitsValue("2") == 2;
    ReadsDecimal("2", "2", ".15");
    assert "2.2.15" == "2" + "." + "2" + ".15";
    ReadsDecimal("2", "3", ".99");
    assert "2.3.99" == "2" + "." + "3" + ".99";
  }

  /** "2.10" reads as 2.1 and so selects the legacy layout too. */
  lemma TwoTenIsLegacy()
    ensures ToF("2.10") == 2.1
    ensures BelowTwoFour("2.10")
  {
    assert DigitsValue("2") == 2;
    ReadsDecimal("2", "10", "");
    assert "2.10" == "2" + "." + "10" + "";
    assert FractionValue("10") == 0.1 by {
      assert "10"[1..] == "0" && "0"[1..] == "";
    }
  }
}
