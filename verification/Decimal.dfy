/** The "%d" rendering of a non-negative integer, which the controller stores as an annotation. */
module Decimal {
  function Digit(d: nat): (c: char)
    requires d < 10
  {
    ('0' as int + d) as char
  }

  function ToString(n: nat): string {
    if n < 10 then [Digit(n)] else ToString(n / 10) + [Digit(n % 10)]
  }

  function Parse(s: string): int {
    if s == [] then 0 else Parse(s[..|s| - 1]) * 10 + (s[|s| - 1] as int - '0' as int)
  }

  lemma {:induction false} ParseToString(n: nat)
    ensures Parse(ToString(n)) == n
  {
    var s := ToString(n);
    if n < 10 {
      assert s[..0] == [];
    } else {
      ParseToString(n / 10);
      assert s[..|s| - 1] == ToString(n / 10);
    }
  }

  /** Two numbers with the same rendering are the same number. */
  lemma Injective(m: nat, n: nat)
    requires ToString(m) == ToString(n)
    ensures m == n
  {
    ParseToString(m);
    ParseToString(n);
  }
}
