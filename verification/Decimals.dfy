/** Decimal printing of integers, and reading it back. */
module Decimals {
  import opened Wrappers

  function Digit(d: nat): (c: char)
    requires d < 10
    ensures '0' <= c <= '9'
  {
    "0123456789"[d]
  }

  function Natural(n: nat): (s: string)
    ensures s != []
  {
    if n < 10 then [Digit(n)] else Natural(n / 10) + [Digit(n % 10)]
  }

  function Decimal(n: int): (s: string)
    ensures s != []
  {
    if n < 0 then "-" + Natural(-n) else Natural(n)
  }

  predicate IsDigits(s: string) {
    forall k | 0 <= k < |s| :: '0' <= s[k] <= '9'
  }

  lemma {:induction false} NaturalIsDigits(n: nat)
    ensures IsDigits(Natural(n))
  {
    if n >= 10 {
      NaturalIsDigits(n / 10);
    }
  }

  lemma {:induction false} NaturalInjective(m: nat, n: nat)
    requires Natural(m) == Natural(n)
    ensures m == n
  {
    var s, t := Natural(m), Natural(n);
    if m >= 10 && n >= 10 {
      assert s[..|s| - 1] == Natural(m / 10) && t[..|t| - 1] == Natural(n / 10);
      NaturalInjective(m / 10, n / 10);
      assert s[|s| - 1] == Digit(m % 10) && t[|t| - 1] == Digit(n % 10);
    } else if m < 10 && n < 10 {
      assert s[0] == Digit(m) && t[0] == Digit(n);
    }
  }

  /** Printed integers start with a digit or a minus sign and hold no underscore. */
  lemma DecimalShape(n: int)
    ensures n >= 0 ==> IsDigits(Decimal(n))
    ensures n < 0 ==> Decimal(n)[0] == '-' && IsDigits(Decimal(n)[1..])
    ensures '_' !in Decimal(n)
  {
    NaturalIsDigits(if n < 0 then -n else n);
  }

  lemma DecimalInjective(m: int, n: int)
    requires Decimal(m) == Decimal(n)
    ensures m == n
  {
    DecimalShape(m);
    DecimalShape(n);
    if m < 0 {
      assert Decimal(m)[1..] == Natural(-m) && Decimal(n)[1..] == Natural(-n);
      NaturalInjective(-m, -n);
    } else {
      NaturalInjective(m, n);
    }
  }

  /** Digit by digit: ten times a number and a digit more prints as that number and that digit. */
  lemma DecimalGrows(n: int, d: int)
    requires 0 <= d < 10
    ensures Decimal(d) == ["0123456789"[d]]
    ensures n > 0 ==> Decimal(10 * n + d) == Decimal(n) + ["0123456789"[d]]
    ensures n > 0 ==> Decimal(-n) == "-" + Decimal(n)
  {
  }

  // ---- Reading ----

  function DigitValue(c: char): int {
    if '0' <= c <= '9' then c as int - '0' as int else 0
  }

  function NaturalValue(s: string): int {
    if s == "" then 0 else 10 * NaturalValue(s[..|s| - 1]) + DigitValue(s[|s| - 1])
  }

  /** The integer that a text prints: no leading zeros, no plus sign, nothing else around it. */
  function Parsed(s: string): Option<int> {
    var n: int := if s != "" && s[0] == '-' then -NaturalValue(s[1..]) else NaturalValue(s);
    if Decimal(n) == s then Some(n) else None
  }

  lemma {:induction false} NaturalIsRead(n: nat)
    ensures NaturalValue(Natural(n)) == n
  {
    var s := Natural(n);
    if n < 10 {
      assert s[..0] == "";
    } else {
      NaturalIsRead(n / 10);
      assert s[..|s| - 1] == Natural(n / 10) && s[|s| - 1] == Digit(n % 10);
    }
  }

  /** Reading inverts printing, and reads nothing but what printing gives. */
  lemma ParsedExactly(s: string, n: int)
    ensures Parsed(s) == Some(n) <==> s == Decimal(n)
  {
    if s == Decimal(n) {
      DecimalShape(n);
      NaturalIsRead(if n < 0 then -n else n);
      assert n < 0 ==> s[1..] == Natural(-n);
    }
  }
}
