// The M-step of train_model (train.c:136-183) on values: the posteriors of a
// batch of training sequences determine the re-estimated parameters, and
// the re-estimated parameters are again a stochastic model.

module Reestimation {
  import opened Sums
  import opened Model

  /** What train_model reads, as values: `count` sequences, sequence n of
      length `len(n)`, its state posteriors `gam(n, t, i)` (the delta
      tables), its pair posteriors `xi(n, t, i, j)` (the epsilon tables)
      and its symbols `sym(n, t)`. */
  datatype Counts = Counts(
    count: nat,
    len: int -> int,
    gam: (int, int, int) -> real,
    xi: (int, int, int, int) -> real,
    sym: (int, int) -> int)

  /** gam(n, 0, i), state i first. */
  function FirstGams(c: Counts): (int, int) -> real
  {
    (i, n) => c.gam(n, 0, i)
  }

  /** The pair posteriors leaving state i, as a batch family in (n, t, j). */
  function XiFrom(c: Counts, i: int): (int, int, int) -> real
  {
    (n, t, j) => c.xi(n, t, i, j)
  }

  /** The state posteriors of state j counted where symbol k was seen, as a
      batch family in (n, t, k). */
  function GamSeen(c: Counts, j: int): (int, int, int) -> real
  {
    (n, t, k) => if c.sym(n, t) == k then c.gam(n, t, j) else 0.0
  }

  /** Every sequence but its last position (the transitions it makes). */
  function Shorter(L: int -> int): int -> int
  {
    n => L(n) - 1
  }

  /** The sum of gam(n, 0, i) over the batch. */
  function InitialNum(c: Counts, i: int): real
  {
    Sum(c.count, Row(FirstGams(c), i))
  }

  /** The expected number of transitions from i to j. */
  function TransNum(c: Counts, i: int, j: int): real
  {
    BatchSum(XiFrom(c, i), Shorter(c.len), c.count, j)
  }

  /** The expected number of transitions from i. */
  function TransDen(c: Counts, i: int): real
  {
    BatchSum(c.gam, Shorter(c.len), c.count, i)
  }

  /** The expected number of times symbol k is seen in state j. */
  function EmitNum(c: Counts, k: int, j: int): real
  {
    BatchSum(GamSeen(c, j), c.len, c.count, k)
  }

  /** The expected number of visits to state j. */
  function EmitDen(c: Counts, j: int): real
  {
    BatchSum(c.gam, c.len, c.count, j)
  }

  function NewInitial(c: Counts, N: nat): (v: seq<real>)
    ensures |v| == N && forall i :: 0 <= i < N ==> v[i] == Quot(InitialNum(c, i), c.count as real)
  {
    seq(N, i => Quot(InitialNum(c, i), c.count as real))
  }

  function NewTransitionRow(c: Counts, N: nat, i: int): (v: seq<real>)
    ensures |v| == N && forall j :: 0 <= j < N ==> v[j] == Quot(TransNum(c, i, j), TransDen(c, i))
  {
    seq(N, j => Quot(TransNum(c, i, j), TransDen(c, i)))
  }

  function NewEmissionRow(c: Counts, N: nat, k: int): (v: seq<real>)
    ensures |v| == N && forall j :: 0 <= j < N ==> v[j] == Quot(EmitNum(c, k, j), EmitDen(c, j))
  {
    seq(N, j => Quot(EmitNum(c, k, j), EmitDen(c, j)))
  }

  /** The re-estimated model with N states and M symbols: the mean initial
      posterior, and the two ratios of expected counts. */
  function Reestimate(c: Counts, N: nat, M: nat): (r: Lambda)
    ensures WellFormed(r) && r.stateNum == N && r.observNum == M
    ensures forall i :: 0 <= i < N ==> Pi(r, i) == Quot(InitialNum(c, i), c.count as real)
    ensures forall i :: 0 <= i < N ==> r.transition[i] == NewTransitionRow(c, N, i)
    ensures forall k :: 0 <= k < M ==> r.observation[k] == NewEmissionRow(c, N, k)
  {
    Lambda(N, M, NewInitial(c, N), seq(N, i => NewTransitionRow(c, N, i)), seq(M, k => NewEmissionRow(c, N, k)))
  }

  /** The re-estimated entries, one at a time. */
  lemma ReestimateEntries(c: Counts, N: nat, M: nat)
    ensures forall i, j :: 0 <= i < N && 0 <= j < N ==>
              A(Reestimate(c, N, M), i, j) == Quot(TransNum(c, i, j), TransDen(c, i))
    ensures forall k, j :: 0 <= k < M && 0 <= j < N ==>
              B(Reestimate(c, N, M), k, j) == Quot(EmitNum(c, k, j), EmitDen(c, j))
  {
    var r := Reestimate(c, N, M);
    forall i, j | 0 <= i < N && 0 <= j < N
      ensures A(r, i, j) == Quot(TransNum(c, i, j), TransDen(c, i))
    {
      assert r.transition[i] == NewTransitionRow(c, N, i);
    }
    forall k, j | 0 <= k < M && 0 <= j < N
      ensures B(r, k, j) == Quot(EmitNum(c, k, j), EmitDen(c, j))
    {
      assert r.observation[k] == NewEmissionRow(c, N, k);
    }
  }

  // ---------------------------------------------------------------------
  // The re-estimated model is stochastic

  /** When every sequence's first posterior row sums to 1, so does the new
      initial vector. */
  lemma InitialSumsToOne(c: Counts, N: nat, M: nat)
    requires c.count > 0
    requires forall n :: 0 <= n < c.count ==> Sum(N, Across(c.gam, n, 0)) == 1.0
    ensures Sum(N, InitialEntries(Reestimate(c, N, M))) == 1.0
  {
    var r, F, K := Reestimate(c, N, M), FirstGams(c), c.count;
    SumQuot(N, RowSums(F, K), K as real, InitialEntries(r));
    SumSwap(N, K, F);
    forall n | 0 <= n < K
      ensures ColSums(F, N)(n) == 1.0
    {
      SumExt(N, Col(F, n), Across(c.gam, n, 0));
    }
    SumConst(K, ColSums(F, N), 1.0);
    QuotOfSelf(K as real);
  }

  /** When the pair posteriors of every position sum over the target state
      to the state posterior (a position-by-position marginal), every new
      transition row with a nonzero denominator sums to 1. */
  lemma TransitionSumsToOne(c: Counts, N: nat, M: nat, i: int)
    requires 0 <= i < N
    requires forall n, t :: 0 <= n < c.count && 0 <= t < c.len(n) - 1 ==>
               Sum(N, Across(XiFrom(c, i), n, t)) == c.gam(n, t, i)
    requires TransDen(c, i) != 0.0
    ensures Sum(N, TransitionRow(Reestimate(c, N, M), i)) == 1.0
  {
    var r, H, L := Reestimate(c, N, M), XiFrom(c, i), Shorter(c.len);
    ReestimateEntries(c, N, M);
    SumQuot(N, BatchSums(H, L, c.count), TransDen(c, i), TransitionRow(r, i));
    SumSwapBatch(H, L, c.count, N, i);
    BatchSumExt(SumAcross(H, N), c.gam, L, c.count, i);
    QuotOfSelf(TransDen(c, i));
  }

  /** When every symbol is one of the M symbols, every new emission column
      with a nonzero denominator sums to 1. */
  lemma EmissionSumsToOne(c: Counts, N: nat, M: nat, j: int)
    requires 0 <= j < N
    requires forall n, t :: 0 <= n < c.count && 0 <= t < c.len(n) ==> 0 <= c.sym(n, t) < M
    requires EmitDen(c, j) != 0.0
    ensures Sum(M, EmissionColumn(Reestimate(c, N, M), j)) == 1.0
  {
    var r, H := Reestimate(c, N, M), GamSeen(c, j);
    ReestimateEntries(c, N, M);
    SumQuot(M, BatchSums(H, c.len, c.count), EmitDen(c, j), EmissionColumn(r, j));
    SumSwapBatch(H, c.len, c.count, M, j);
    forall n, t | 0 <= n < c.count && 0 <= t < c.len(n)
      ensures SumAcross(H, M)(n, t, j) == c.gam(n, t, j)
    {
      SumSingle(M, Across(H, n, t), c.sym(n, t));
    }
    BatchSumExt(SumAcross(H, M), c.gam, c.len, c.count, j);
    QuotOfSelf(EmitDen(c, j));
  }

  /** The posteriors of a batch that satisfy the marginal laws give a
      stochastic model. */
  lemma ReestimateStochastic(c: Counts, N: nat, M: nat)
    requires c.count > 0
    requires forall n :: 0 <= n < c.count ==> Sum(N, Across(c.gam, n, 0)) == 1.0
    requires forall i, n, t :: 0 <= i < N && 0 <= n < c.count && 0 <= t < c.len(n) - 1 ==>
               Sum(N, Across(XiFrom(c, i), n, t)) == c.gam(n, t, i)
    requires forall n, t :: 0 <= n < c.count && 0 <= t < c.len(n) ==> 0 <= c.sym(n, t) < M
    requires forall i :: 0 <= i < N ==> TransDen(c, i) != 0.0
    requires forall j :: 0 <= j < N ==> EmitDen(c, j) != 0.0
    ensures Stochastic(Reestimate(c, N, M))
  {
    InitialSumsToOne(c, N, M);
    forall i | 0 <= i < N
      ensures Sum(N, TransitionRow(Reestimate(c, N, M), i)) == 1.0
    {
      TransitionSumsToOne(c, N, M, i);
    }
    forall j | 0 <= j < N
      ensures Sum(M, EmissionColumn(Reestimate(c, N, M), j)) == 1.0
    {
      EmissionSumsToOne(c, N, M, j);
    }
  }

  /** Non-negative posteriors give non-negative parameters, whatever the
      denominators. */
  lemma ReestimateNonNegative(c: Counts, N: nat, M: nat)
    requires forall n, t, i :: 0 <= n < c.count && 0 <= t && 0 <= i < N ==> c.gam(n, t, i) >= 0.0
    requires forall n, t, i, j :: 0 <= n < c.count && 0 <= t && 0 <= i < N && 0 <= j < N ==>
               c.xi(n, t, i, j) >= 0.0
    ensures NonNegative(Reestimate(c, N, M))
  {
    var r := Reestimate(c, N, M);
    ReestimateEntries(c, N, M);
    forall i | 0 <= i < N
      ensures Pi(r, i) >= 0.0
    {
      SumNonNegative(c.count, Row(FirstGams(c), i));
      QuotNonNegative(InitialNum(c, i), c.count as real);
    }
    forall i, j | 0 <= i < N && 0 <= j < N
      ensures A(r, i, j) >= 0.0
    {
      BatchSumNonNegative(XiFrom(c, i), Shorter(c.len), c.count, j);
      BatchSumNonNegative(c.gam, Shorter(c.len), c.count, i);
      QuotNonNegative(TransNum(c, i, j), TransDen(c, i));
    }
    forall k, j | 0 <= k < M && 0 <= j < N
      ensures B(r, k, j) >= 0.0
    {
      BatchSumNonNegative(GamSeen(c, j), c.len, c.count, k);
      BatchSumNonNegative(c.gam, c.len, c.count, j);
      QuotNonNegative(EmitNum(c, k, j), EmitDen(c, j));
    }
  }
}
