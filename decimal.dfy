/** Decimal text of integers, as JavaScript's `toString` writes them. */
module Decimal {
  /** The decimal digit for `d`. */
  function DigitChar(d: nat): (c: char)
    requires d < 10
    ensures '0' <= c <= '9'
    ensures c as int - '0' as int == d
  {
    ('0' as int + d) as char
  }

  /** The decimal text of `n`, without leading zeros. */
  function NatToString(n: nat): (s: string)
    ensures |s| >= 1 && (n >= 10 ==> |s| >= 2)
    ensures '0' <= s[0] <= '9'
  {
    if n < 10 then [DigitChar(n)] else NatToString(n / 10) + [DigitChar(n % 10)]
  }

  /** `n.toString()` for an integer `n`: a minus sign, then the digits of its magnitude. */
  function IntToString(n: int): (s: string)
    ensures |s| >= 1
    ensures (s[0] == '-') <==> n < 0
  {
    if n < 0 then "-" + NatToString(-n) else NatToString(n)
  }

  /** Different numbers have different decimal texts. */
  lemma {:induction false} NatToStringInjective(a: nat, b: nat)
    ensures NatToString(a) == NatToString(b) ==> a == b
  {
    var s, t := NatToString(a), NatToString(b);
    if s == t {
      if a < 10 && b < 10 {
        assert DigitChar(a) == s[0];
      } else if a >= 10 && b >= 10 {
        var x, y := NatToString(a / 10), NatToString(b / 10);
        assert s == x + [DigitChar(a % 10)] && t == y + [DigitChar(b % 10)];
        assert DigitChar(a % 10) == s[|s| - 1];
        assert x == s[..|s| - 1];
        NatToStringInjective(a / 10, b / 10);
      }
    }
  }

  /** Different integers have different texts. */
  lemma IntToStringInjective(a: int, b: int)
    ensures IntToString(a) == IntToString(b) ==> a == b
  {
    var s, t := IntToString(a), IntToString(b);
    if s == t && a < 0 && b < 0 {
      assert s == "-" + NatToString(-a) && t == "-" + NatToString(-b);
      assert NatToString(-a) == s[1..];
      NatToStringInjective(-a, -b);
    } else if s == t && a >= 0 && b >= 0 {
      NatToStringInjective(a, b);
    }
  }
}
