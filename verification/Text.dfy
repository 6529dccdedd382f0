/** Decimal rendering, as Go's %d writes it, and texts split at a separator. */
module Text {

  function Digit(d: nat): (c: char)
    requires d < 10
    ensures '0' <= c <= '9' && c as int == '0' as int + d
  {
    ('0' as int + d) as char
  }

  function DecimalNat(n: nat): (s: string)
    ensures s != [] && forall i :: 0 <= i < |s| ==> '0' <= s[i] <= '9'
  {
    if n < 10 then [Digit(n)] else DecimalNat(n / 10) + [Digit(n % 10)]
  }

  /** What a row of digits amounts to. */
  function Value(s: string): int {
    if s == "" then 0 else Value(s[..|s| - 1]) * 10 + (s[|s| - 1] as int - '0' as int)
  }

  /** The digits written amount to the number, with no zero in front of others. */
  lemma {:induction false} DecimalReads(n: nat)
    ensures Value(DecimalNat(n)) == n && (DecimalNat(n)[0] == '0' ==> n == 0 && DecimalNat(n) == "0")
  {
    if n >= 10 {
      DecimalReads(n / 10);
      assert DecimalNat(n)[..|DecimalNat(n)| - 1] == DecimalNat(n / 10);
      assert DecimalNat(n)[0] == DecimalNat(n / 10)[0];
    } else {
      assert DecimalNat(n)[..0] == "";
    }
  }

  function Decimal(n: int): string {
    if n < 0 then "-" + DecimalNat(-n) else DecimalNat(n)
  }

  lemma {:induction false} DecimalNatInjective(a: nat, b: nat)
    requires DecimalNat(a) == DecimalNat(b)
    ensures a == b
  {
    var s, t := DecimalNat(a), DecimalNat(b);
    assert s[|s| - 1] == Digit(a % 10) && t[|t| - 1] == Digit(b % 10);
    if a >= 10 && b >= 10 {
      assert s[..|s| - 1] == DecimalNat(a / 10) && t[..|t| - 1] == DecimalNat(b / 10);
      DecimalNatInjective(a / 10, b / 10);
    }
  }

  lemma SignShows(n: int)
    ensures Decimal(n) != [] && (n < 0 <==> Decimal(n)[0] == '-')
  {
  }

  lemma DecimalInjective(a: int, b: int)
    requires Decimal(a) == Decimal(b)
    ensures a == b
  {
    SignShows(a);
    SignShows(b);
    if a < 0 {
      assert Decimal(a)[1..] == DecimalNat(-a) && Decimal(b)[1..] == DecimalNat(-b);
      DecimalNatInjective(-a, -b);
    } else {
      DecimalNatInjective(a, b);
    }
  }

  /** How many digits a count takes. */
  function DigitCount(n: nat): nat { |DecimalNat(n)| }

  /** One more unit never costs more than one more digit. */
  lemma {:induction false} DigitCountStep(n: nat)
    ensures DigitCount(n) <= DigitCount(n + 1) <= DigitCount(n) + 1
  {
    if n >= 10 {
      if n % 10 == 9 {
        assert (n + 1) / 10 == n / 10 + 1;
        DigitCountStep(n / 10);
      } else {
        assert (n + 1) / 10 == n / 10;
      }
    }
  }

  predicate Without(s: string, c: char) { forall i :: 0 <= i < |s| ==> s[i] != c }

  /** A field ends at the first separator, so equal texts have equal fields. */
  lemma FieldsAgree(x: string, s: char, r: string, y: string, t: char, q: string)
    requires x + [s] + r == y + [t] + q
    requires Without(x, t) && Without(y, s)
    ensures x == y && s == t && r == q
  {
    var left, right := x + [s] + r, y + [t] + q;
    assert left[|x|] == s && right[|y|] == t;
    assert left[..|x|] == x && right[..|y|] == y;
    assert left[|x| + 1..] == r && right[|y| + 1..] == q;
  }
}
