// Finite sums and running maxima over index ranges 0..n-1.
//
// Every accumulator loop of the HMM engine (`accum += ...`, `sum += ...`,
// `if (tmp > max) { max = tmp; arg_max = i; }`) is specified by one of the
// functions below, and the lemmas are the algebra the recurrences need.

module Sums {

  /** Sum of f(0) + ... + f(n-1), added left to right like the C loops. */
  function Sum(n: int, f: int -> real): real
    decreases n
  {
    if n <= 0 then 0.0 else Sum(n - 1, f) + f(n - 1)
  }

  /** x / y, and 0 when y is 0; every method divides only by a nonzero y. */
  function Quot(x: real, y: real): real
  {
    if y == 0.0 then 0.0 else x / y
  }

  /** Running maximum of f(0..n-1) that starts at 0 and is replaced only by a
      strictly larger candidate (the `max = 0; if (tmp > max)` pattern). */
  function Max0(n: int, f: int -> real): real
    decreases n
  {
    if n <= 0 then 0.0
    else if f(n - 1) > Max0(n - 1, f) then f(n - 1)
    else Max0(n - 1, f)
  }

  /** The index recorded by the same loop: the last index whose candidate was
      strictly larger than every earlier one, or `init` when none was. */
  function ArgMax0(n: int, f: int -> real, init: int): int
    decreases n
  {
    if n <= 0 then init
    else if f(n - 1) > Max0(n - 1, f) then n - 1
    else ArgMax0(n - 1, f, init)
  }

  // ---------------------------------------------------------------------
  // Pointwise combinators used with the sums (named so that every use of
  // the same combination is the same term)

  function Row(F: (int, int) -> real, i: int): int -> real
  {
    j => F(i, j)
  }

  function Col(F: (int, int) -> real, j: int): int -> real
  {
    i => F(i, j)
  }

  function RowSums(F: (int, int) -> real, m: int): int -> real
  {
    i => Sum(m, Row(F, i))
  }

  function ColSums(F: (int, int) -> real, n: int): int -> real
  {
    j => Sum(n, Col(F, j))
  }

  // ---------------------------------------------------------------------
  // Sum lemmas

  lemma {:induction false} SumExt(n: int, f: int -> real, g: int -> real)
    requires forall k :: 0 <= k < n ==> f(k) == g(k)
    ensures Sum(n, f) == Sum(n, g)
    decreases n
  {
    if n > 0 {
      SumExt(n - 1, f, g);
    }
  }

  lemma {:induction false} SumNonNegative(n: int, f: int -> real)
    requires forall k :: 0 <= k < n ==> f(k) >= 0.0
    ensures Sum(n, f) >= 0.0
    decreases n
  {
    if n > 0 {
      SumNonNegative(n - 1, f);
    }
  }

  lemma {:induction false} SumScale(n: int, f: int -> real, c: real, g: int -> real)
    requires forall k :: 0 <= k < n ==> g(k) == c * f(k)
    ensures Sum(n, g) == c * Sum(n, f)
    decreases n
  {
    if n > 0 {
      SumScale(n - 1, f, c, g);
    }
  }

  /** Dividing every term by the same nonzero y divides the sum by y. */
  lemma SumQuot(n: int, f: int -> real, y: real, g: int -> real)
    requires y != 0.0
    requires forall k :: 0 <= k < n ==> g(k) == Quot(f(k), y)
    ensures Sum(n, g) == Quot(Sum(n, f), y)
  {
    forall k | 0 <= k < n
      ensures g(k) == (1.0 / y) * f(k)
    {
      QuotIsScale(f(k), y);
    }
    SumScale(n, f, 1.0 / y, g);
    QuotIsScale(Sum(n, f), y);
  }

  lemma {:induction false} SumAdd(n: int, f: int -> real, g: int -> real, h: int -> real)
    requires forall k :: 0 <= k < n ==> h(k) == f(k) + g(k)
    ensures Sum(n, h) == Sum(n, f) + Sum(n, g)
    decreases n
  {
    if n > 0 {
      SumAdd(n - 1, f, g, h);
    }
  }

  lemma {:induction false} SumLe(n: int, f: int -> real, g: int -> real)
    requires forall k :: 0 <= k < n ==> f(k) <= g(k)
    ensures Sum(n, f) <= Sum(n, g)
    decreases n
  {
    if n > 0 {
      SumLe(n - 1, f, g);
    }
  }

  lemma {:induction false} SumConst(n: nat, f: int -> real, c: real)
    requires forall k :: 0 <= k < n ==> f(k) == c
    ensures Sum(n, f) == n as real * c
    decreases n
  {
    if n > 0 {
      SumConst(n - 1, f, c);
      assert Sum(n, f) == (n - 1) as real * c + c;
      assert (n - 1) as real * c + c == n as real * c;
    }
  }

  /** A sum whose only nonzero term is at index s. */
  lemma {:induction false} SumSingle(n: int, f: int -> real, s: int)
    requires 0 <= s < n
    requires forall k :: 0 <= k < n && k != s ==> f(k) == 0.0
    ensures Sum(n, f) == f(s)
    decreases n
  {
    if n - 1 == s {
      SumZero(n - 1, f);
    } else {
      SumSingle(n - 1, f, s);
    }
  }

  lemma {:induction false} SumZero(n: int, f: int -> real)
    requires forall k :: 0 <= k < n ==> f(k) == 0.0
    ensures Sum(n, f) == 0.0
    decreases n
  {
    if n > 0 {
      SumZero(n - 1, f);
    }
  }

  /** One more term. */
  lemma SumStep(n: int, f: int -> real)
    requires 0 <= n
    ensures Sum(n + 1, f) == Sum(n, f) + f(n)
  {
  }

  /** Adding row i's sum to the sum of rows 0..i-1 gives the sum of rows 0..i. */
  lemma RowSumsStep(F: (int, int) -> real, n: int, i: int, s: real)
    requires 0 <= i
    ensures s == Sum(i, RowSums(F, n)) ==> s + Sum(n, Row(F, i)) == Sum(i + 1, RowSums(F, n))
  {
  }

  /** Exchange of a double sum over the rectangle 0..n-1 x 0..m-1. */
  lemma {:induction false} SumSwap(n: int, m: int, F: (int, int) -> real)
    ensures Sum(n, RowSums(F, m)) == Sum(m, ColSums(F, n))
    decreases n
  {
    if n <= 0 {
      SumZero(m, ColSums(F, n));
    } else {
      SumSwap(n - 1, m, F);
      // Peel the last row off every column sum.
      forall j | 0 <= j < m
        ensures ColSums(F, n)(j) == ColSums(F, n - 1)(j) + Row(F, n - 1)(j)
      {
      }
      SumAdd(m, ColSums(F, n - 1), Row(F, n - 1), ColSums(F, n));
    }
  }

  /** Double sums of two matrices that agree on the first m x n entries are equal. */
  lemma SumExt2(m: int, n: int, F: (int, int) -> real, G: (int, int) -> real)
    requires forall i, j :: 0 <= i < m && 0 <= j < n ==> F(i, j) == G(i, j)
    ensures Sum(m, RowSums(F, n)) == Sum(m, RowSums(G, n))
  {
    forall i | 0 <= i < m
      ensures RowSums(F, n)(i) == RowSums(G, n)(i)
    {
      SumExt(n, Row(F, i), Row(G, i));
    }
    SumExt(m, RowSums(F, n), RowSums(G, n));
  }

  /** Every term of a non-negative sum is at most the sum. */
  lemma {:induction false} TermLeSum(n: int, f: int -> real, k: int)
    requires forall i :: 0 <= i < n ==> f(i) >= 0.0
    requires 0 <= k < n
    ensures f(k) <= Sum(n, f)
    decreases n
  {
    SumNonNegative(n - 1, f);
    if k < n - 1 {
      TermLeSum(n - 1, f, k);
    }
  }

  // ---------------------------------------------------------------------
  // Running maximum lemmas

  /** The running maximum is non-negative and bounds every candidate. */
  lemma {:induction false} Max0Bounds(n: int, f: int -> real)
    ensures Max0(n, f) >= 0.0
    ensures forall k :: 0 <= k < n ==> f(k) <= Max0(n, f)
    decreases n
  {
    if n > 0 {
      Max0Bounds(n - 1, f);
    }
  }

  /** What the strict `>` comparison records: when the maximum is positive the
      index is the LOWEST one attaining it; otherwise nothing was recorded and
      the index is still `init`. */
  lemma {:induction false} ArgMax0Spec(n: int, f: int -> real, init: int)
    ensures Max0(n, f) > 0.0 ==>
              0 <= ArgMax0(n, f, init) < n
              && f(ArgMax0(n, f, init)) == Max0(n, f)
              && forall k :: 0 <= k < ArgMax0(n, f, init) ==> f(k) < Max0(n, f)
    ensures Max0(n, f) == 0.0 ==> ArgMax0(n, f, init) == init
    decreases n
  {
    if n > 0 {
      ArgMax0Spec(n - 1, f, init);
      Max0Bounds(n - 1, f);
    }
  }

  /** The running maximum is either 0 or one of the candidates. */
  lemma Max0Attained(n: int, f: int -> real)
    ensures Max0(n, f) == 0.0 || exists k :: 0 <= k < n && f(k) == Max0(n, f)
  {
    Max0Bounds(n, f);
    ArgMax0Spec(n, f, 0);
  }

  /** For non-negative candidates, the maximum is at most the sum. */
  lemma {:induction false} Max0LeSum(n: int, f: int -> real)
    requires forall k :: 0 <= k < n ==> f(k) >= 0.0
    ensures Max0(n, f) <= Sum(n, f)
    decreases n
  {
    if n > 0 {
      Max0LeSum(n - 1, f);
      SumNonNegative(n - 1, f);
    }
  }

  /** A pointwise larger family has a larger running maximum. */
  lemma {:induction false} Max0Le(n: int, f: int -> real, g: int -> real)
    requires forall k :: 0 <= k < n ==> f(k) <= g(k)
    ensures Max0(n, f) <= Max0(n, g)
    decreases n
  {
    if n > 0 {
      Max0Le(n - 1, f, g);
    }
  }

  /** The running maximum of the terms d(k) * w(k) is at most the sum of
      the terms e(k) * w(k) when 0 <= d <= e and w >= 0 pointwise. */
  lemma Max0WeightedLeSum(n: int, c: int -> real, f: int -> real, d: int -> real, e: int -> real, w: int -> real)
    requires forall k :: 0 <= k < n ==> c(k) == d(k) * w(k) && f(k) == e(k) * w(k)
    requires forall k :: 0 <= k < n ==> 0.0 <= d(k) <= e(k) && w(k) >= 0.0
    ensures Max0(n, c) <= Sum(n, f)
  {
    forall k | 0 <= k < n
      ensures c(k) <= f(k) && f(k) >= 0.0
    {
      MulLe(d(k), e(k), w(k));
      MulNonNegative(e(k), w(k));
    }
    Max0Le(n, c, f);
    Max0LeSum(n, f);
  }

  // ---------------------------------------------------------------------
  // Small facts of real arithmetic, kept out of the larger proofs

  lemma QuotIsScale(x: real, y: real)
    requires y != 0.0
    ensures Quot(x, y) == (1.0 / y) * x
  {
  }

  lemma QuotOfSelf(y: real)
    requires y != 0.0
    ensures Quot(y, y) == 1.0
  {
  }

  lemma QuotNonNegative(x: real, y: real)
    requires x >= 0.0 && y >= 0.0
    ensures Quot(x, y) >= 0.0
  {
  }

  lemma MulAssoc4(x: real, y: real, z: real, w: real)
    ensures x * y * z * w == x * (y * z * w)
    ensures x * y * z * w == (z * w) * (x * y)
  {
  }

  lemma MulNonNegative(x: real, y: real)
    requires x >= 0.0 && y >= 0.0
    ensures x * y >= 0.0
  {
  }

  lemma MulLe(x: real, y: real, c: real)
    requires x <= y && c >= 0.0
    ensures x * c <= y * c
  {
  }

  // ---------------------------------------------------------------------
  // Sums over a batch of sequences: sequence n has L(n) positions, and
  // H(n, t, j) is the term at position t of sequence n for index j.

  /** The terms of sequence n for index j. */
  function Along(H: (int, int, int) -> real, n: int, j: int): int -> real
  {
    t => H(n, t, j)
  }

  /** The total over the first K sequences, for index j, one sequence at a
      time. */
  function BatchSum(H: (int, int, int) -> real, L: int -> int, K: int, j: int): real
    decreases K
  {
    if K <= 0 then 0.0 else BatchSum(H, L, K - 1, j) + Sum(L(K - 1), Along(H, K - 1, j))
  }

  /** One more sequence. */
  lemma BatchSumStep(H: (int, int, int) -> real, L: int -> int, K: int, j: int, s: real, x: real)
    requires 0 <= K
    requires s == BatchSum(H, L, K, j) && x == Sum(L(K), Along(H, K, j))
    ensures BatchSum(H, L, K + 1, j) == s + x
  {
  }

  function BatchSums(H: (int, int, int) -> real, L: int -> int, K: int): int -> real
  {
    j => BatchSum(H, L, K, j)
  }

  /** The terms of position t of sequence n, over the index. */
  function Across(H: (int, int, int) -> real, n: int, t: int): int -> real
  {
    j => H(n, t, j)
  }

  /** H summed over the first M indices (the last argument is unused). */
  function SumAcross(H: (int, int, int) -> real, M: int): (int, int, int) -> real
  {
    (n, t, u) => Sum(M, Across(H, n, t))
  }

  /** H with the sequence n fixed and the index first. */
  function IndexFirst(H: (int, int, int) -> real, n: int): (int, int) -> real
  {
    (j, t) => H(n, t, j)
  }

  /** The total of sequence n for index j, index first. */
  function SequenceTotals(H: (int, int, int) -> real, L: int -> int): (int, int) -> real
  {
    (j, n) => Sum(L(n), Along(H, n, j))
  }

  /** Within one sequence, summing over the index then over the positions
      is summing over the positions then over the index. */
  lemma SumSwapSequence(H: (int, int, int) -> real, L: int -> int, M: int, n: int, u: int)
    ensures Sum(M, Col(SequenceTotals(H, L), n)) == Sum(L(n), Along(SumAcross(H, M), n, u))
  {
    var F := IndexFirst(H, n);
    forall j | 0 <= j < M
      ensures Col(SequenceTotals(H, L), n)(j) == RowSums(F, L(n))(j)
    {
      SumExt(L(n), Along(H, n, j), Row(F, j));
    }
    SumExt(M, Col(SequenceTotals(H, L), n), RowSums(F, L(n)));
    SumSwap(M, L(n), F);
    forall t | 0 <= t < L(n)
      ensures ColSums(F, M)(t) == Along(SumAcross(H, M), n, u)(t)
    {
      SumExt(M, Col(F, t), Across(H, n, t));
    }
    SumExt(L(n), ColSums(F, M), Along(SumAcross(H, M), n, u));
  }

  /** The batch total does not depend on the order in which the index is
      summed. */
  lemma {:induction false} SumSwapBatch(H: (int, int, int) -> real, L: int -> int, K: int, M: int, u: int)
    ensures Sum(M, BatchSums(H, L, K)) == BatchSum(SumAcross(H, M), L, K, u)
    decreases K
  {
    if K <= 0 {
      SumZero(M, BatchSums(H, L, K));
    } else {
      SumSwapBatch(H, L, K - 1, M, u);
      SumAdd(M, BatchSums(H, L, K - 1), Col(SequenceTotals(H, L), K - 1), BatchSums(H, L, K));
      SumSwapSequence(H, L, M, K - 1, u);
    }
  }

  /** Batch totals of two families that agree on the batch are equal. */
  lemma {:induction false} BatchSumExt(H: (int, int, int) -> real, G: (int, int, int) -> real, L: int -> int, K: int, j: int)
    requires forall n, t :: 0 <= n < K && 0 <= t < L(n) ==> H(n, t, j) == G(n, t, j)
    ensures BatchSum(H, L, K, j) == BatchSum(G, L, K, j)
    decreases K
  {
    if K > 0 {
      BatchSumExt(H, G, L, K - 1, j);
      SumExt(L(K - 1), Along(H, K - 1, j), Along(G, K - 1, j));
    }
  }

  /** A batch total of non-negative terms is non-negative. */
  lemma {:induction false} BatchSumNonNegative(H: (int, int, int) -> real, L: int -> int, K: int, j: int)
    requires forall n, t :: 0 <= n < K && 0 <= t < L(n) ==> H(n, t, j) >= 0.0
    ensures BatchSum(H, L, K, j) >= 0.0
    decreases K
  {
    if K > 0 {
      BatchSumNonNegative(H, L, K - 1, j);
      SumNonNegative(L(K - 1), Along(H, K - 1, j));
    }
  }
}
