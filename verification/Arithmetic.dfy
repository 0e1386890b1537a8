/** Small functions over the reals, and the products proofs are careful about. */
module Arithmetic {

  function Min(a: real, b: real): real { if a <= b then a else b }

  function Max(a: real, b: real): real { if a >= b then a else b }

  function Abs(a: real): real { if a < 0.0 then -a else a }

  function Clamp(x: real, lo: real, hi: real): real {
    if x < lo then lo else if x > hi then hi else x
  }

  function Prod(a: real, b: real): real { a * b }

  lemma ProdSwaps(a: real, b: real)
    ensures Prod(a, b) == Prod(b, a)
  {
  }

  /** A positive factor keeps the sign. */
  lemma SignOf(k: real, x: real)
    requires k > 0.0
    ensures x > 0.0 <==> k * x > 0.0
    ensures x == 0.0 <==> k * x == 0.0
  {
  }

  lemma SquareOrder(a: real, b: real)
    requires a >= 0.0 && b >= 0.0
    ensures Prod(a, a) <= Prod(b, b) <==> a <= b
    ensures Prod(a, a) == Prod(b, b) <==> a == b
  {
    if a + b > 0.0 {
      SignOf(a + b, a - b);
      assert (a + b) * (a - b) == a * a - b * b;
    }
  }
}
