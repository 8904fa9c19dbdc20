/** Display keys `item-<n>`: the decimal rendering of a natural number, as a
    JavaScript template literal produces it, and the fact that distinct
    numbers give distinct keys. */
module ReactKeys {

  function Digit(d: nat): (c: char)
    requires d < 10
    ensures '0' <= c <= '9'
    ensures c as int - '0' as int == d
  {
    ('0' as int + d) as char
  }

  /** Decimal digits of n, most significant first, without leading zeros. */
  function NatToString(n: nat): (s: string)
    ensures |s| >= 1
    ensures forall i :: 0 <= i < |s| ==> '0' <= s[i] <= '9'
    ensures n < 10 <==> |s| == 1
    ensures s[|s| - 1] == Digit(n % 10)
    decreases n
  {
    if n < 10 then [Digit(n)] else NatToString(n / 10) + [Digit(n % 10)]
  }

  /** The display key the feed gives the item created with counter value n. */
  function ReactKey(n: nat): (k: string)
    ensures |k| > 5 && k[..5] == "item-" && k[5..] == NatToString(n)
  {
    "item-" + NatToString(n)
  }

  /** The number a string of decimal digits denotes, most significant first. */
  function DigitsValue(s: string): nat
    requires forall i :: 0 <= i < |s| ==> '0' <= s[i] <= '9'
  {
    if s == [] then 0 else DigitsValue(s[..|s| - 1]) * 10 + (s[|s| - 1] as int - '0' as int)
  }

  /** The rendering reads back as n, and has no leading zero unless n is 0. */
  lemma {:induction false} NatToStringValue(n: nat)
    ensures DigitsValue(NatToString(n)) == n
    ensures n > 0 ==> NatToString(n)[0] != '0'
    decreases n
  {
    if n >= 10 {
      var s := NatToString(n / 10);
      NatToStringValue(n / 10);
      assert (s + [Digit(n % 10)])[..|s|] == s;
    }
  }

  lemma {:induction false} NatToStringInjective(a: nat, b: nat)
    requires NatToString(a) == NatToString(b)
    ensures a == b
  {
    var s := NatToString(a);
    assert a % 10 == b % 10 by {
      assert Digit(a % 10) == s[|s| - 1] == Digit(b % 10);
    }
    if a >= 10 {
      assert b >= 10;
      assert NatToString(a / 10) == s[..|s| - 1] == NatToString(b / 10);
      NatToStringInjective(a / 10, b / 10);
    }
  }

  /** Distinct counter values never produce the same display key. */
  lemma ReactKeyInjective(a: nat, b: nat)
    ensures ReactKey(a) == ReactKey(b) <==> a == b
  {
    if ReactKey(a) == ReactKey(b) {
      assert NatToString(a) == ReactKey(a)[5..] == ReactKey(b)[5..] == NatToString(b);
      NatToStringInjective(a, b);
    }
  }
}
