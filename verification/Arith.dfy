/** Ceiling division and the block arithmetic every table length is stated in. */
module Arith {
  function CeilDiv(n: nat, d: nat): nat
    requires d >= 1
  {
    (n + d - 1) / d
  }

  function Min(a: int, b: int): int {
    if a <= b then a else b
  }

  function Max(a: int, b: int): int {
    if a >= b then a else b
  }

  lemma DivBounds(n: int, d: int)
    requires d >= 1
    ensures (n / d) * d <= n < (n / d) * d + d
    ensures n % d == n - (n / d) * d
  {
  }

  lemma MulMono(a: int, b: int, d: int)
    requires a <= b && d >= 0
    ensures a * d <= b * d
  {
  }

  lemma DivIs(n: int, d: int, q: int)
    requires d >= 1 && q * d <= n < (q + 1) * d
    ensures n / d == q
  {
    DivBounds(n, d);
    if n / d > q {
      MulMono(q + 1, n / d, d);
    } else if n / d < q {
      MulMono(n / d + 1, q, d);
    }
  }

  lemma CeilBounds(n: nat, d: nat)
    requires d >= 1
    ensures n <= CeilDiv(n, d) * d < n + d
  {
    DivBounds(n + d - 1, d);
  }

  lemma CeilIs(n: nat, d: nat, k: nat)
    requires d >= 1 && n <= k * d < n + d
    ensures CeilDiv(n, d) == k
  {
    DivIs(n + d - 1, d, k);
  }

  /** n positions need at most k blocks exactly when k blocks hold n positions. */
  lemma CeilAtMost(n: nat, d: nat, k: nat)
    requires d >= 1
    ensures CeilDiv(n, d) <= k <==> n <= k * d
  {
    CeilBounds(n, d);
    if CeilDiv(n, d) <= k { MulMono(CeilDiv(n, d), k, d); } else { MulMono(k, CeilDiv(n, d) - 1, d); }
  }

  lemma MulStrict(a: int, b: int, d: int)
    requires a < b && d >= 1
    ensures a * d + d <= b * d
  {
    MulMono(a + 1, b, d);
  }

  lemma DivMono(a: nat, b: nat, d: nat)
    requires d >= 1 && a <= b
    ensures a / d <= b / d
  {
    DivBounds(a, d);
    DivBounds(b, d);
    if a / d > b / d {
      MulStrict(b / d, a / d, d);
    }
  }

  lemma CeilMono(a: nat, b: nat, d: nat)
    requires d >= 1 && a <= b
    ensures CeilDiv(a, d) <= CeilDiv(b, d)
  {
    DivMono(a + d - 1, b + d - 1, d);
  }

  /** Floor and ceiling differ by at most one, and agree exactly on multiples. */
  lemma FloorCeil(n: nat, d: nat)
    requires d >= 1
    ensures n / d <= CeilDiv(n, d) <= n / d + 1
    ensures CeilDiv(n, d) == n / d <==> n % d == 0
  {
    DivBounds(n, d);
    if n % d == 0 {
      CeilIs(n, d, n / d);
    } else {
      CeilIs(n, d, n / d + 1);
    }
  }

  /** Block i is completely covered by n positions exactly when i < n/d. */
  lemma FullBlock(i: nat, n: nat, d: nat)
    requires d >= 1
    ensures i < n / d <==> (i + 1) * d <= n
  {
    DivBounds(n, d);
    if i < n / d {
      MulMono(i + 1, n / d, d);
    } else {
      MulMono(n / d, i, d);
    }
  }

  lemma Successor(n: nat, d: nat)
    requires d >= 2
    ensures n % d == d - 1 ==> (n + 1) / d == n / d + 1 && (n + 1) % d == 0
    ensures n % d != d - 1 ==> (n + 1) / d == n / d && (n + 1) % d == n % d + 1
  {
    var q, r := n / d, n % d;
    DivBounds(n, d);
    if r == d - 1 {
      assert (q + 1) * d == q * d + d;
      DivIs(n + 1, d, q + 1);
    } else {
      DivIs(n + 1, d, q);
    }
    DivBounds(n + 1, d);
  }

  /** The append test `len % d == 1` fires exactly when the table must grow. */
  lemma AppendTest(n: nat, d: nat)
    requires d >= 2
    ensures CeilDiv(n + 1, d) == CeilDiv(n, d) + (if (n + 1) % d == 1 then 1 else 0)
    ensures (n + 1) % d == 1 <==> n % d == 0
  {
    hide CeilDiv;
    Successor(n, d);
    FloorCeil(n, d);
    FloorCeil(n + 1, d);
  }

  /** The number of blocks that contain position h is ceil((h + 1) / d). */
  lemma HighestPosition(h: nat, d: nat)
    requires d >= 1
    ensures h / d + 1 == CeilDiv(h + 1, d)
  {
    DivBounds(h, d);
    CeilIs(h + 1, d, h / d + 1);
  }

  lemma CeilOfMultiple(k: nat, n: nat, d: nat)
    requires d >= 1
    ensures CeilDiv(k * d + n, d) == k + CeilDiv(n, d)
    ensures (k * d + n) / d == k + n / d
  {
    CeilBounds(n, d);
    CeilIs(k * d + n, d, k + CeilDiv(n, d));
    DivBounds(n, d);
    DivIs(k * d + n, d, k + n / d);
  }
}
