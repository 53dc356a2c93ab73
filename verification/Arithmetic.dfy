/** Facts about block and slot arithmetic, proved once so that other modules need no
    non-linear reasoning. */
module Arithmetic {
  lemma MulPositive(b: nat, x: int)
    requires b > 0 && x >= 1
    ensures b * x >= b
  {
    assert b * x == b * (x - 1) + b;
    assert b * (x - 1) >= 0;
  }

  /** Quotient and remainder of b * q + r are q and r. */
  lemma DivModUnique(b: nat, q: nat, r: nat)
    requires r < b
    ensures (b * q + r) / b == q && (b * q + r) % b == r
  {
    var n := b * q + r;
    var d, m := n / b, n % b;
    assert n == b * d + m;
    assert b * (d - q) == b * d - b * q;
    assert b * (q - d) == b * q - b * d;
    if d > q {
      MulPositive(b, d - q);
    }
    if d < q {
      MulPositive(b, q - d);
    }
  }

  /** The flat address of entry off of block id. */
  function Slot(id: nat, off: nat, b: nat): nat {
    id * b + off
  }

  lemma SlotInjective(i: nat, x: nat, j: nat, y: nat, b: nat)
    requires x < b && y < b && Slot(i, x, b) == Slot(j, y, b)
    ensures i == j && x == y
  {
    assert i * b == b * i && j * b == b * j;
    DivModUnique(b, i, x);
    DivModUnique(b, j, y);
  }

  lemma SlotInRange(i: nat, x: nat, n: nat, b: nat)
    requires i < n && x < b
    ensures Slot(i, x, b) < n * b
  {
    MulPositive(b, n - i);
    assert b * (n - i) == n * b - i * b;
  }

  /** Blocks needed for n tokens: the least k with n <= k * b. */
  function NumBlocks(n: nat, b: nat): nat
    requires b > 0
  {
    (n + b - 1) / b
  }

  lemma NumBlocksCovers(n: nat, b: nat)
    requires b > 0
    ensures n <= NumBlocks(n, b) * b < n + b
  {
    var m := n + b - 1;
    assert m == b * (m / b) + m % b;
  }

  lemma MulMonotone(i: nat, j: nat, b: nat)
    requires i <= j
    ensures i * b <= j * b
  {
    assert (j - i) * b >= 0;
    assert (j - i) * b == j * b - i * b;
  }

  /** NumBlocks is the least such k, so it is monotone. */
  lemma NumBlocksLeast(n: nat, k: nat, b: nat)
    requires b > 0
    ensures n <= k * b <==> NumBlocks(n, b) <= k
  {
    NumBlocksCovers(n, b);
    var q := NumBlocks(n, b);
    if q <= k {
      MulMonotone(q, k, b);
    } else {
      MulMonotone(k, q - 1, b);
      assert (q - 1) * b == q * b - b;
    }
  }

  lemma NumBlocksMonotone(n: nat, m: nat, b: nat)
    requires b > 0 && n <= m
    ensures NumBlocks(n, b) <= NumBlocks(m, b)
  {
    NumBlocksCovers(m, b);
    NumBlocksLeast(n, NumBlocks(m, b), b);
  }

  /** The first i + 1 blocks fit into n tokens iff n has more than i whole blocks. */
  lemma WholeBlocksIn(n: nat, i: nat, b: nat)
    requires b > 0
    ensures i < n / b <==> (i + 1) * b <= n
  {
    var q := n / b;
    assert n == q * b + n % b;
    if i < q {
      MulMonotone(i + 1, q, b);
    } else {
      MulMonotone(q + 1, i + 1, b);
      assert (q + 1) * b == q * b + b;
    }
  }

  /** Where token position p lives: block p / b at offset p % b. */
  lemma PositionSplit(p: nat, b: nat)
    requires b > 0
    ensures p % b < b && p == (p / b) * b + p % b
  {
    assert p == b * (p / b) + p % b;
  }

  lemma SamePosition(p: nat, q: nat, b: nat)
    requires b > 0 && p / b == q / b && p % b == q % b
    ensures p == q
  {
    PositionSplit(p, b);
    PositionSplit(q, b);
  }

  /** Position p is in one of the first k blocks iff p < k * b. */
  lemma PositionBlock(p: nat, k: nat, b: nat)
    requires b > 0
    ensures p < k * b <==> p / b < k
  {
    PositionSplit(p, b);
    var q := p / b;
    if q < k {
      MulMonotone(q + 1, k, b);
      assert (q + 1) * b == q * b + b;
    } else {
      MulMonotone(k, q, b);
    }
  }

  lemma BeforeNextBlock(p: nat, b: nat)
    requires b > 0
    ensures p < (p / b + 1) * b
  {
    PositionBlock(p, p / b + 1, b);
  }
}
