/** Integer facts about products, quotients and remainders that the solver is not left to find by itself. */
module Arithmetic {
  lemma ProductGap(k: int, d: int)
    requires d > 0
    ensures k >= 1 ==> k * d >= d
    ensures k <= -1 ==> k * d <= -d
  {
  }

  lemma ProductOrder(a: int, b: int, d: int)
    requires d > 0
    ensures a < b ==> a * d + d <= b * d
    ensures a >= b ==> a * d >= b * d
  {
    assert (b - a) * d == b * d - a * d;
    ProductGap(b - a, d);
    if a == b { assert a * d == b * d; }
  }

  lemma DivModUnique(n: nat, q: nat, r: nat, d: nat)
    requires d > 0 && r < d && n == q * d + r
    ensures n / d == q && n % d == r
  {
    assert n == (n / d) * d + n % d;
    ProductOrder(n / d, q, d);
    ProductOrder(q, n / d, d);
  }

  function CeilDiv(n: nat, d: nat): (q: nat)
    requires d > 0
  {
    (n + d - 1) / d
  }

  lemma CeilDivMono(a: nat, b: nat, d: nat)
    requires d > 0 && a <= b
    ensures CeilDiv(a, d) <= CeilDiv(b, d)
  {
    assert a + d - 1 == CeilDiv(a, d) * d + (a + d - 1) % d;
    assert b + d - 1 == CeilDiv(b, d) * d + (b + d - 1) % d;
    ProductOrder(CeilDiv(a, d), CeilDiv(b, d) + 1, d);
    assert (CeilDiv(b, d) + 1) * d == CeilDiv(b, d) * d + d;
  }

  lemma QuotientBelow(p: nat, n: nat, d: nat)
    requires d > 0
    ensures p / d < n <==> p < n * d
  {
    assert p == (p / d) * d + p % d;
    ProductOrder(p / d, n, d);
  }

  /** The least number of blocks that hold all positions. */
  lemma CeilDivLeast(n: nat, d: nat, q: nat)
    requires d > 0
    ensures CeilDiv(n, d) <= q <==> n <= q * d
  {
    var c := CeilDiv(n, d);
    assert n + d - 1 == c * d + (n + d - 1) % d;
    ProductOrder(q, c, d);
    if c > 0 {
      assert (c - 1) * d == c * d - d;
      ProductOrder(q, c - 1, d);
      if q == c - 1 { assert q * d == c * d - d; }
    }
  }

  /** Enough blocks hold all positions. */
  lemma CeilDivRoom(n: nat, d: nat, q: nat)
    requires d > 0 && CeilDiv(n, d) <= q
    ensures n <= q * d
  {
    assert n + d - 1 == CeilDiv(n, d) * d + (n + d - 1) % d;
    ProductOrder(q, CeilDiv(n, d), d);
  }

  /** The ids below `n`. */
  function AllBelow(n: nat): (r: set<nat>)
    ensures forall t: nat :: t in r <==> t < n
  {
    if n == 0 then {} else AllBelow(n - 1) + {n - 1}
  }
}
