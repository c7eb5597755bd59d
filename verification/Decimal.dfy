/** Integers written in decimal, as JavaScript's `String(n)` writes them. */
module Decimal {
  function Digit(n: int): char
    requires 0 <= n < 10
  {
    '0' + n as char
  }

  predicate IsDigit(c: char) {
    '0' <= c <= '9'
  }

  function DigitValue(c: char): (n: int)
    requires IsDigit(c)
    ensures 0 <= n < 10
  {
    (c - '0') as int
  }

  function Unsigned(n: nat): (s: string)
    ensures s != []
  {
    if n < 10 then [Digit(n)] else Unsigned(n / 10) + [Digit(n % 10)]
  }

  function Written(n: int): string {
    if n < 0 then "-" + Unsigned(-n) else Unsigned(n)
  }

  /** The value of a string of digits, as `Number(s)` reads it. */
  function Value(s: string): int
    requires forall i :: 0 <= i < |s| ==> IsDigit(s[i])
  {
    if s == [] then 0 else 10 * Value(s[..|s| - 1]) + DigitValue(s[|s| - 1])
  }

  lemma {:induction false} UnsignedReadsBack(n: nat)
    ensures forall i :: 0 <= i < |Unsigned(n)| ==> IsDigit(Unsigned(n)[i])
    ensures Value(Unsigned(n)) == n
  {
    var s := Unsigned(n);
    if n < 10 {
      assert s[..0] == [];
    } else {
      UnsignedReadsBack(n / 10);
      assert s[..|s| - 1] == Unsigned(n / 10);
    }
  }

  /** Different integers are written differently. */
  lemma WrittenIsOne(m: int, n: int)
    requires Written(m) == Written(n)
    ensures m == n
  {
    UnsignedReadsBack(if m < 0 then -m else m);
    UnsignedReadsBack(if n < 0 then -n else n);
    assert Written(m)[0] == '-' <==> m < 0;
    assert Written(n)[0] == '-' <==> n < 0;
    if m < 0 {
      assert Written(m)[1..] == Unsigned(-m) && Written(n)[1..] == Unsigned(-n);
    }
  }

  lemma {:induction false} LengthBounds(n: nat)
    ensures n >= 10 ==> |Unsigned(n)| == |Unsigned(n / 10)| + 1
    ensures |Unsigned(n)| == 1 <==> n < 10
  {
  }

  lemma FourLong(n: nat)
    ensures |Unsigned(n)| == 4 <==> 1000 <= n <= 9999
  {
    LengthBounds(n);
    LengthBounds(n / 10);
    LengthBounds(n / 10 / 10);
    LengthBounds(n / 10 / 10 / 10);
    assert n / 10 / 10 / 10 == n / 1000 && n / 10 / 10 == n / 100;
  }

  /** A number of four digits is written as those digits. */
  lemma FourDigits(n: int)
    requires 1000 <= n <= 9999
    ensures Written(n) == [Digit(n / 1000), Digit(n / 100 % 10), Digit(n / 10 % 10), Digit(n % 10)]
  {
    assert Unsigned(n / 1000) == [Digit(n / 1000)];
    assert n / 100 / 10 == n / 1000 && n / 10 / 10 == n / 100;
    assert Unsigned(n / 100) == [Digit(n / 1000), Digit(n / 100 % 10)];
    assert Unsigned(n / 10) == [Digit(n / 1000), Digit(n / 100 % 10), Digit(n / 10 % 10)];
  }
}
