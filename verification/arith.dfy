/** Small facts about integer multiplication and division used by the flat
    (x-major) cell numbering of the chunk grid and by the visibility window. */
module Arith {

  /** Multiplying both sides of `a <= b` by a natural number keeps the order. */
  lemma MulMonotone(a: int, b: int, n: nat)
    requires a <= b
    ensures a * n <= b * n
  {
    assert b * n - a * n == (b - a) * n;
  }

  /** The flat index `i * ncol + i2` of cell `(i, i2)` lies inside a grid of
      `nrow * ncol` cells. */
  lemma IndexInGrid(i: nat, i2: nat, nrow: nat, ncol: nat)
    requires i < nrow && i2 < ncol
    ensures i * ncol + i2 < nrow * ncol
  {
    MulMonotone(i + 1, nrow, ncol);
  }

  /** Cells of earlier columns have smaller flat indices than any cell of a later column. */
  lemma EarlierColumnBelow(a: nat, b: nat, i: nat, i2: nat, ncol: nat)
    requires a < i && b < ncol
    ensures a * ncol + b < i * ncol + i2
  {
    MulMonotone(a + 1, i, ncol);
  }

  /** A multiple of `n` strictly between `-n` and `n` is zero. */
  lemma SmallMultipleIsZero(q: int, n: int)
    requires n > 0
    requires -n < q * n < n
    ensures q == 0
  {
    if q >= 1 {
      MulMonotone(1, q, n);
    } else if q <= -1 {
      MulMonotone(q, -1, n);
    }
  }

  /** Euclidean division recovers the column and the offset of a flat index. */
  lemma DivModOfIndex(i: int, i2: int, n: int)
    requires n > 0 && 0 <= i2 < n
    ensures (i * n + i2) / n == i
    ensures (i * n + i2) % n == i2
  {
    var k := i * n + i2;
    var q, r := k / n, k % n;
    assert q * n + r == k;
    assert (q - i) * n == i2 - r;
    SmallMultipleIsZero(q - i, n);
  }

  /** Two positions `a + b * m` with offsets `a` below the stride `m` are equal
      only if both coordinates are. */
  lemma StrideInjective(a1: int, b1: int, a2: int, b2: int, m: int)
    requires m > 0
    requires 0 <= a1 < m && 0 <= a2 < m
    requires a1 + b1 * m == a2 + b2 * m
    ensures a1 == a2 && b1 == b2
  {
    assert (b1 - b2) * m == a2 - a1;
    SmallMultipleIsZero(b1 - b2, m);
  }

  /** Integer ceiling of `a / b` for a non-negative numerator: the smallest
      count of `b`-sized pieces that covers `a`. */
  function CeilDiv(a: nat, b: nat): (q: nat)
    requires b > 0
    ensures q * b >= a
    ensures q == 0 || (q - 1) * b < a
  {
    var q := (a + b - 1) / b;
    assert q * b + (a + b - 1) % b == a + b - 1;
    q
  }

  /** The quotient of `x` by `n` is the `a` whose block `[a*n, a*n + n)` holds `x`. */
  lemma DivUnique(a: int, x: int, n: int)
    requires n > 0 && a * n <= x < a * n + n
    ensures x / n == a
  {
    DivModOfIndex(a, x - a * n, n);
  }

  /** Euclidean division places a natural number in its block. */
  lemma DivBlock(x: nat, n: nat)
    requires n > 0
    ensures (x / n) * n <= x < (x / n) * n + n
  {
  }

  /** A position inside `[0, dim)` falls in one of the `CeilDiv(dim, n)` blocks. */
  lemma BlockInRange(x: nat, dim: nat, n: nat)
    requires n > 0 && x < dim
    ensures x / n < CeilDiv(dim, n)
  {
    DivBlock(x, n);
    if x / n >= CeilDiv(dim, n) {
      MulMonotone(CeilDiv(dim, n), x / n, n);
    }
  }

  /** A flat index below `n * n` splits into a row and a column below `n`. */
  lemma SlotOf(k: nat, n: nat) returns (i: nat, j: nat)
    requires n > 0 && k < n * n
    ensures i < n && j < n && k == i * n + j
  {
    i, j := k / n, k % n;
    if i >= n {
      MulMonotone(n, i, n);
    }
  }
}
