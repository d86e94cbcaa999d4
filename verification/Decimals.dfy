/** Whole numbers as the language runtime writes them. */
module Decimals {
  import opened Types

  const DIGITS := "0123456789"

  function Digits(n: nat): (s: string)
    ensures s != []
    ensures NoColon(s) && '-' !in s
  {
    if n < 10 then [DIGITS[n]] else Digits(n / 10) + [DIGITS[n % 10]]
  }

  function Decimal(i: int): (s: string)
    ensures NoColon(s)
  {
    if i < 0 then "-" + Digits(-i) else Digits(i)
  }

  lemma LastDigit(n: nat)
    ensures var s := Digits(n);
      && s[|s| - 1] == DIGITS[n % 10]
      && (|s| == 1 <==> n < 10)
      && (n >= 10 ==> s[..|s| - 1] == Digits(n / 10))
  {
    if n >= 10 {
      assert (Digits(n / 10) + [DIGITS[n % 10]])[..|Digits(n / 10)|] == Digits(n / 10);
    }
  }

  lemma DigitCharsDiffer(i: nat, j: nat)
    requires i < 10 && j < 10 && DIGITS[i] == DIGITS[j]
    ensures i == j
  {
  }

  lemma {:induction false} DigitsDiffer(m: nat, n: nat)
    requires Digits(m) == Digits(n)
    ensures m == n
  {
    hide Digits;
    LastDigit(m);
    LastDigit(n);
    DigitCharsDiffer(m % 10, n % 10);
    if m >= 10 {
      DigitsDiffer(m / 10, n / 10);
    }
  }

  /** The number that decimal digits stand for. */
  function Number(s: string): int {
    if s == [] then 0 else Number(s[..|s| - 1]) * 10 + (s[|s| - 1] as int - '0' as int)
  }

  /** What is written reads as the number, without a leading zero. */
  lemma {:induction false} DigitsRead(n: nat)
    ensures Number(Digits(n)) == n
    ensures n > 0 ==> Digits(n)[0] != '0'
  {
    LastDigit(n);
    DigitChar(n % 10);
    if n >= 10 {
      DigitsRead(n / 10);
    } else {
      assert Digits(n) == [DIGITS[n]] && Digits(n)[..0] == [];
    }
  }

  lemma DigitChar(d: nat)
    requires d < 10
    ensures DIGITS[d] as int == '0' as int + d
  {
  }

  lemma DecimalDiffers(i: int, j: int)
    requires Decimal(i) == Decimal(j)
    ensures i == j
  {
    SignShows(i);
    SignShows(j);
    if i < 0 {
      assert Digits(-i) == Decimal(i)[1..] == Digits(-j);
      DigitsDiffer(-i, -j);
    } else {
      DigitsDiffer(i, j);
    }
  }

  lemma SignShows(i: int)
    ensures Decimal(i) != [] && (Decimal(i)[0] == '-' <==> i < 0)
  {
    if i >= 0 {
      assert Digits(i)[0] in Digits(i);
    }
  }
}
