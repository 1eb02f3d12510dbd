/** Decimal renderings of integers and how they are read back. */
module Numerals {

  function Decimal(n: nat): string {
    if n < 10 then ['0' + n as char] else Decimal(n / 10) + ['0' + (n % 10) as char]
  }

  /** The rendering of any integer. */
  function Text(n: int): string { if n < 0 then "-" + Decimal(-n) else Decimal(n) }

  predicate IsDigit(c: char) { '0' <= c <= '9' }

  predicate IsDecimal(s: string) { s != [] && forall c :: c in s ==> IsDigit(c) }

  function DigitValue(c: char): nat
    requires IsDigit(c)
  {
    c as int - '0' as int
  }

  function ParseDecimal(s: string): nat
    requires forall c :: c in s ==> IsDigit(c)
  {
    if s == "" then 0 else 10 * ParseDecimal(s[..|s| - 1]) + DigitValue(s[|s| - 1])
  }

  lemma {:induction false} DecimalParses(n: nat)
    ensures IsDecimal(Decimal(n)) && ParseDecimal(Decimal(n)) == n
  {
    if n >= 10 {
      DecimalParses(n / 10);
      var s := Decimal(n);
      assert s[..|s| - 1] == Decimal(n / 10);
    } else {
      assert Decimal(n)[..0] == "";
    }
  }

  lemma TextInjective(m: int, n: int)
    requires Text(m) == Text(n)
    ensures m == n
  {
    var a, b := if m < 0 then -m else m, if n < 0 then -n else n;
    DecimalParses(a);
    DecimalParses(b);
    assert Decimal(a)[0] in Decimal(a) && Decimal(b)[0] in Decimal(b);
    assert (m < 0 <==> Text(m)[0] == '-') && (n < 0 <==> Text(n)[0] == '-');
    if m < 0 {
      assert Text(m)[1..] == Decimal(a) && Text(n)[1..] == Decimal(b);
    }
  }
}
