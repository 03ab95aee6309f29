/** Integer arithmetic shared by the models. */
module Arithmetic {
  function Min(a: nat, b: nat): nat { if a < b then a else b }

  function Max(a: nat, b: nat): nat { if a < b then b else a }

  lemma MinOf(a: nat, b: nat)
    ensures Min(a, b) <= a && Min(a, b) <= b && (Min(a, b) == a || Min(a, b) == b)
  {
  }

  /** Saturating subtraction. */
  function SatSub(a: nat, b: nat): nat { if a < b then 0 else a - b }

  function CeilDiv(a: nat, b: nat): nat
    requires b > 0
  {
    (a + b - 1) / b
  }

  lemma DivBelow(x: nat, d: nat, k: nat)
    requires d > 0
    ensures x / d < k <==> x < k * d
  {
    var q := x / d;
    assert x == q * d + x % d;
    if q < k {
      assert (q + 1) * d <= k * d;
    } else {
      assert k * d <= q * d;
    }
  }

  lemma BelowCeilDiv(j: nat, a: nat, b: nat)
    requires b > 0
    ensures j < CeilDiv(a, b) <==> j * b < a
  {
    DivBelow(a + b - 1, b, j + 1);
    assert (j + 1) * b == j * b + b;
  }

  lemma CeilDivMonotone(a: nat, c: nat, b: nat)
    requires b > 0 && a <= c
    ensures CeilDiv(a, b) <= CeilDiv(c, b)
  {
    BelowCeilDiv(CeilDiv(c, b), c, b);
    BelowCeilDiv(CeilDiv(c, b), a, b);
  }
}
