/**
 * Decimal rendering of non-negative integers, as a JavaScript template literal
 * `${n}` renders them, and the parse that undoes it.
 */
module Numerals {

  predicate IsDigit(c: char) {
    '0' <= c <= '9'
  }

  predicate AllDigits(s: string) {
    forall k :: 0 <= k < |s| ==> IsDigit(s[k])
  }

  function DigitChar(d: nat): (c: char)
    requires d < 10
    ensures IsDigit(c) && c as int - '0' as int == d
  {
    ('0' as int + d) as char
  }

  /** `${n}` for a non-negative integer n: its decimal digits, most significant first, no leading zero. */
  function NatToString(n: nat): (s: string)
    ensures 1 <= |s| && AllDigits(s)
    ensures |s| > 1 ==> s[0] != '0'
    decreases n
  {
    if n < 10 then [DigitChar(n)] else NatToString(n / 10) + [DigitChar(n % 10)]
  }

  /** The value of a string of decimal digits. */
  function ParseNat(s: string): nat
    requires AllDigits(s)
  {
    if s == [] then 0 else ParseNat(s[..|s| - 1]) * 10 + (s[|s| - 1] as int - '0' as int)
  }

  /** Parsing the rendering of n gives n back. */
  lemma {:induction false} ParseNatToString(n: nat)
    ensures ParseNat(NatToString(n)) == n
    decreases n
  {
    var s := NatToString(n);
    if n >= 10 {
      ParseNatToString(n / 10);
      assert s[..|s| - 1] == NatToString(n / 10);
    }
  }

  /** Different numbers render differently. */
  lemma NatToStringInjective(a: nat, b: nat)
    requires NatToString(a) == NatToString(b)
    ensures a == b
  {
    ParseNatToString(a);
    ParseNatToString(b);
  }

  /** Three-digit numbers render as three characters, four-digit numbers as four. */
  lemma {:induction false} NatToStringWidth(n: nat)
    ensures 100 <= n <= 999 ==> |NatToString(n)| == 3
    ensures 1000 <= n <= 9999 ==> |NatToString(n)| == 4
  {
    if 100 <= n {
      var m := n / 10;
      assert |NatToString(n)| == |NatToString(m)| + 1;
      assert |NatToString(m)| == |NatToString(m / 10)| + 1;
      if n <= 999 {
        assert m / 10 < 10;
      } else if n <= 9999 {
        assert |NatToString(m / 10)| == |NatToString(m / 100)| + 1;
        assert m / 100 < 10;
      }
    }
  }
}
