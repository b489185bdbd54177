/** strconv.Itoa on naturals, and the fact that different indices print differently. */
module Decimal {
  import opened Wrappers

  function Digit(d: nat): char
    requires d < 10
  {
    ['0', '1', '2', '3', '4', '5', '6', '7', '8', '9'][d]
  }

  function DigitValue(c: char): (d: nat)
    ensures d < 10
  {
    if '0' <= c <= '9' then c as int - '0' as int else 0
  }

  function Itoa(n: nat): string {
    if n < 10 then [Digit(n)] else Itoa(n / 10) + [Digit(n % 10)]
  }

  function Value(s: string): nat {
    if |s| == 0 then 0 else 10 * Value(s[..|s| - 1]) + DigitValue(s[|s| - 1])
  }

  /** The number that prints as `s`, if any. */
  function ParseIndex(s: string): Option<nat> {
    if Itoa(Value(s)) == s then Some(Value(s)) else None
  }

  lemma {:induction false} ValueOfItoa(n: nat)
    ensures Value(Itoa(n)) == n
  {
    if n >= 10 {
      ValueOfItoa(n / 10);
      assert Itoa(n)[..|Itoa(n)| - 1] == Itoa(n / 10);
    } else {
      assert Itoa(n)[..0] == [];
    }
  }

  lemma ParsesBack(n: nat)
    ensures ParseIndex(Itoa(n)) == Some(n)
  {
    ValueOfItoa(n);
  }

  /** n without its last k digits. */
  function Dropped(n: nat, k: nat): nat {
    if k == 0 then n else Dropped(n / 10, k - 1)
  }

  /** The text is the decimal one: from the right, character k is that of digit k, and there are
      neither more digits than needed nor fewer. */
  lemma {:induction false} ItoaDigits(n: nat, k: nat)
    ensures k < |Itoa(n)| ==> Itoa(n)[|Itoa(n)| - 1 - k] as int == '0' as int + Dropped(n, k) % 10
    ensures k < |Itoa(n)| <==> k == 0 || Dropped(n, k) > 0
  {
    if k == 0 {
      assert forall d: nat :: d < 10 ==> Digit(d) as int == '0' as int + d;
    } else if n < 10 {
      DroppedZero(k - 1);
    } else {
      ItoaDigits(n / 10, k - 1);
    }
  }

  lemma {:induction false} DroppedZero(k: nat)
    ensures Dropped(0, k) == 0
  {
    if k > 0 {
      DroppedZero(k - 1);
    }
  }

  lemma ItoaInjective(a: nat, b: nat)
    requires Itoa(a) == Itoa(b)
    ensures a == b
  {
    ValueOfItoa(a);
    ValueOfItoa(b);
  }
}
