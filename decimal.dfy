/** Decimal rendering of a natural number, as JavaScript's template
    literals render a non-negative integer such as an array length. */
module Decimal {

  predicate IsDigit(c: char) {
    '0' <= c <= '9'
  }

  predicate AllDigits(s: string) {
    forall i :: 0 <= i < |s| ==> IsDigit(s[i])
  }

  /** A canonical decimal numeral: non-empty, digits only, and no leading
      zero unless the numeral is "0" itself. */
  predicate IsNumeral(s: string) {
    |s| > 0 && AllDigits(s) && (s[0] == '0' ==> |s| == 1)
  }

  function DigitChar(d: nat): (c: char)
    requires d < 10
    ensures IsDigit(c) && c as int - '0' as int == d
  {
    ('0' as int + d) as char
  }

  function DigitValue(c: char): (d: nat)
    requires IsDigit(c)
    ensures d < 10 && DigitChar(d) == c
  {
    c as int - '0' as int
  }

  /** The numeral JavaScript prints for `n`. */
  function NatToString(n: nat): (s: string)
    ensures IsNumeral(s)
    ensures s == "0" <==> n == 0
    decreases n
  {
    if n < 10 then [DigitChar(n)] else NatToString(n / 10) + [DigitChar(n % 10)]
  }

  /** The value a string of digits denotes (the reference reading used to
      state what NatToString produces). */
  function ParseDecimal(s: string): (n: nat)
    requires AllDigits(s)
    decreases |s|
  {
    if s == [] then 0 else 10 * ParseDecimal(s[..|s| - 1]) + DigitValue(s[|s| - 1])
  }

  /** NatToString is inverted by ParseDecimal: the printed numeral denotes n. */
  lemma {:induction false} ParseNatToString(n: nat)
    ensures ParseDecimal(NatToString(n)) == n
    decreases n
  {
    var s := NatToString(n);
    if n < 10 {
      assert s[..|s| - 1] == [];
    } else {
      var p := NatToString(n / 10);
      assert s[..|s| - 1] == p;
      ParseNatToString(n / 10);
    }
  }

  /** Every canonical numeral is printed back from its value, so NatToString
      is a bijection between naturals and canonical numerals. */
  lemma {:induction false} NatToStringParse(s: string)
    requires IsNumeral(s)
    ensures NatToString(ParseDecimal(s)) == s
    decreases |s|
  {
    var last := s[|s| - 1];
    if |s| == 1 {
      assert s[..0] == [];
      assert s == [last];
    } else {
      var p := s[..|s| - 1];
      assert p[0] == s[0];
      assert IsNumeral(p);
      NatToStringParse(p);
      var v := ParseDecimal(p);
      assert v != 0;
      var n := ParseDecimal(s);
      assert n == 10 * v + DigitValue(last);
      assert n / 10 == v && n % 10 == DigitValue(last);
      assert s == p + [last];
    }
  }
}
