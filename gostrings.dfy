/** The two Go standard-library string helpers the provider relies on:
    `strconv.Itoa` (decimal rendering of an `int`) and `strings.Contains`.
    Each comes with an independent reference definition and a lemma that
    ties the two together. */
module GoStrings {
  import opened Wrappers

  predicate IsDigit(c: char) {
    '0' <= c <= '9'
  }

  predicate AllDigits(s: string) {
    forall i :: 0 <= i < |s| ==> IsDigit(s[i])
  }

  function DigitChar(d: nat): (c: char)
    requires d < 10
    ensures IsDigit(c) && DigitValue(c) == d
  {
    (('0' as int) + d) as char
  }

  function DigitValue(c: char): nat
    requires IsDigit(c)
  {
    (c as int) - ('0' as int)
  }

  /** The shortest decimal rendering of a natural number: only digits, and no
      leading zero unless the number is zero itself. */
  function NatToDecimal(n: nat): (s: string)
    ensures |s| >= 1 && AllDigits(s)
    ensures s[0] == '0' ==> n == 0 && |s| == 1
    decreases n
  {
    if n < 10 then [DigitChar(n)] else NatToDecimal(n / 10) + [DigitChar(n % 10)]
  }

  /** The value of a string of decimal digits, read most significant first. */
  function DecimalValue(s: string): nat
    requires AllDigits(s)
  {
    if s == [] then 0 else DecimalValue(s[..|s| - 1]) * 10 + DigitValue(s[|s| - 1])
  }

  /** Reference reading of a decimal integer: an optional '-' followed by at
      least one digit; anything else is malformed. */
  function ParseDecimal(s: string): Option<int> {
    if |s| >= 2 && s[0] == '-' && AllDigits(s[1..]) then Some(-(DecimalValue(s[1..]) as int))
    else if |s| >= 1 && AllDigits(s) then Some(DecimalValue(s))
    else None
  }

  lemma {:induction false} NatToDecimalRoundTrip(n: nat)
    ensures DecimalValue(NatToDecimal(n)) == n
  {
    if n >= 10 {
      var s := NatToDecimal(n);
      NatToDecimalRoundTrip(n / 10);
      assert s[..|s| - 1] == NatToDecimal(n / 10);
    }
  }

  /** The digits of a decimal rendering, after an optional leading '-'. */
  function Magnitude(s: string): string {
    if |s| > 0 && s[0] == '-' then s[1..] else s
  }

  /** The canonical decimal form: an optional '-', then at least one digit and
      no leading zero unless the digits are "0" alone. */
  predicate CanonicalDecimal(s: string) {
    var d := Magnitude(s);
    |d| >= 1 && AllDigits(d) && (d[0] == '0' ==> |d| == 1)
  }

  /** `strconv.Itoa`: the canonical decimal form, with a leading '-' exactly
      for negative numbers (so never "-0"), which reads back as the number. */
  function Itoa(i: int): (s: string)
    ensures |s| >= 1 && CanonicalDecimal(s)
    ensures s[0] == '-' <==> i < 0
    ensures i < 0 ==> Magnitude(s) != "0"
    ensures ParseDecimal(s) == Some(i)
  {
    if i < 0 then
      NatToDecimalRoundTrip(-i);
      assert ("-" + NatToDecimal(-i))[1..] == NatToDecimal(-i);
      "-" + NatToDecimal(-i)
    else
      NatToDecimalRoundTrip(i);
      NatToDecimal(i)
  }

  /** Different integers never share a rendering. */
  lemma ItoaInjective(i: int, j: int)
    requires Itoa(i) == Itoa(j)
    ensures i == j
  {
    assert Some(i) == ParseDecimal(Itoa(i)) == ParseDecimal(Itoa(j)) == Some(j);
  }

  /** `sub` occurs in `s` starting at position `i`. */
  ghost predicate OccursAt(s: string, sub: string, i: nat) {
    i + |sub| <= |s| && s[i..i + |sub|] == sub
  }

  /** `strings.Contains`: scan every starting position left to right. */
  function Contains(s: string, sub: string): bool
    decreases |s|
  {
    (|sub| <= |s| && s[..|sub|] == sub) || (|s| > 0 && Contains(s[1..], sub))
  }

  /** The scan finds `sub` exactly when it occurs somewhere in `s`. */
  lemma {:induction false} ContainsIff(s: string, sub: string)
    ensures Contains(s, sub) <==> exists i: nat :: OccursAt(s, sub, i)
    decreases |s|
  {
    if |s| > 0 {
      ContainsIff(s[1..], sub);
      if Contains(s[1..], sub) {
        var i: nat :| OccursAt(s[1..], sub, i);
        assert s[i + 1..i + 1 + |sub|] == s[1..][i..i + |sub|];
        assert OccursAt(s, sub, i + 1);
      }
      if i: nat :| OccursAt(s, sub, i) && i > 0 {
        assert s[1..][i - 1..i - 1 + |sub|] == s[i..i + |sub|];
        assert OccursAt(s[1..], sub, i - 1);
      }
    }
    if |sub| <= |s| && s[..|sub|] == sub {
      assert OccursAt(s, sub, 0);
    }
  }
}
