/** The few facts about products and quotients that the timing proofs use. */
module Arithmetic {
  lemma Distribute(a: int, b: int, c: int)
    ensures a * (b + c) == a * b + a * c
  {
  }

  lemma MulMono(d: nat, a: int, b: int)
    requires a <= b
    ensures d * a <= d * b
  {
  }

  lemma QuotientBelow(d: nat, x: nat)
    requires d > 0
    ensures d * (x / d) <= x < d * (x / d + 1)
  {
    Distribute(d, x / d, 1);
  }

  lemma QuotientAtLeast(d: nat, q: nat, x: nat)
    requires d > 0 && d * q <= x
    ensures q <= x / d
  {
    QuotientBelow(d, x);
    if x / d < q {
      MulMono(d, x / d + 1, q);
    }
  }

  lemma ExactQuotient(d: nat, q: nat)
    requires d > 0
    ensures d * q / d == q
  {
    QuotientAtLeast(d, q, d * q);
    QuotientBelow(d, d * q);
    if q < d * q / d {
      MulMono(d, q + 1, d * q / d);
      Distribute(d, q, 1);
    }
  }

  lemma QuotientMono(d: nat, x: nat, y: nat)
    requires d > 0 && x <= y
    ensures x / d <= y / d
  {
    var q := x / d;
    QuotientBelow(d, x);
    QuotientAtLeast(d, q, y);
  }

  lemma SmallQuotient(d: nat, x: nat)
    requires d > 0
    ensures x / d <= x
  {
    var q := x / d;
    QuotientBelow(d, x);
    MulMono(q, 1, d);
    assert q * d == d * q && q * 1 == q;
  }
}
