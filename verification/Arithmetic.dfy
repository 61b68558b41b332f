/** Integer arithmetic the money proofs rest on. */
module Arithmetic {
  function CeilDiv(a: int, b: int): int
    requires b > 0
  {
    -((-a) / b)
  }

  lemma MulAssoc(a: int, b: int, c: int)
    ensures a * b * c == a * (b * c)
  {
  }

  lemma Distribute(a: int, b: int, c: int)
    ensures a * (b + c) == a * b + a * c
  {
  }

  lemma CancelFactor(k: int, x: int, y: int)
    requires k > 0
    ensures k * x <= k * y <==> x <= y
  {
    if x <= y {
      assert k * (y - x) >= 0;
    } else {
      assert k * (x - y - 1) >= 0;
    }
  }

  lemma CeilDivBounds(a: int, b: int)
    requires b > 0
    ensures (CeilDiv(a, b) - 1) * b < a <= CeilDiv(a, b) * b
  {
    var q, r := (-a) / b, (-a) % b;
    assert -a == b * q + r && 0 <= r < b;
    assert (-q) * b == -(b * q);
    assert (-q - 1) * b == -(b * q) - b;
  }

  lemma {:induction false} CeilDivLeast(a: int, b: int, x: int)
    requires b > 0
    ensures CeilDiv(a, b) <= x <==> a <= x * b
  {
    CeilDivBounds(a, b);
    hide CeilDiv;
    var c := CeilDiv(a, b);
    CancelFactor(b, c, x);
    CancelFactor(b, x, c - 1);
    assert b * c == c * b && b * x == x * b && b * (c - 1) == (c - 1) * b;
  }
}
