// The forward, backward and posterior recurrences of train.c, as functions of
// a parameter value `p` and a symbol sequence `o`. These are the
// specifications the table-filling methods are proved against, and the
// lemmas here are their properties: the two
// derivations of P(O | lambda) agree, and the posteriors are normalised.

module Recurrences {
  import opened Sums
  import opened Model

  /** Symbol o[t], total (no symbol, -1, outside the sequence). */
  function Sym(o: seq<int>, t: int): int
  {
    if 0 <= t < |o| then o[t] else -1
  }

  // ---------------------------------------------------------------------
  // Forward variables alpha[t][j] (train.c:18-33)

  function Alpha(p: Lambda, o: seq<int>, t: nat, j: int): real
    decreases t, 0
  {
    if t == 0 then Pi(p, j) * B(p, Sym(o, 0), j)
    else Sum(p.stateNum, ForwardTerms(p, o, t - 1, j)) * B(p, Sym(o, t), j)
  }

  /** The terms alpha[t][i] * a[i][j] accumulated into alpha[t+1][j]. */
  function ForwardTerms(p: Lambda, o: seq<int>, t: nat, j: int): int -> real
    decreases t, 1
  {
    i => Alpha(p, o, t, i) * A(p, i, j)
  }

  function AlphaRow(p: Lambda, o: seq<int>, t: nat): int -> real
  {
    i => Alpha(p, o, t, i)
  }

  /** Termination: P(O | lambda) = sum of alpha[T-1][i]. */
  function ForwardProb(p: Lambda, o: seq<int>): real
  {
    if |o| == 0 then 0.0 else Sum(p.stateNum, AlphaRow(p, o, |o| - 1))
  }

  // ---------------------------------------------------------------------
  // Backward variables beta[t][i] (train.c:57-72)

  function Beta(p: Lambda, o: seq<int>, t: nat, i: int): real
    decreases |o| - t, 1
  {
    if t + 1 >= |o| then 1.0 else Sum(p.stateNum, BackwardTerms(p, o, t, i))
  }

  /** The terms a[i][j] * b[o[t+1]][j] * beta[t+1][j] accumulated into beta[t][i]. */
  function BackwardTerms(p: Lambda, o: seq<int>, t: nat, i: int): int -> real
    requires t + 1 < |o|
    decreases |o| - t, 0
  {
    j => A(p, i, j) * B(p, Sym(o, t + 1), j) * Beta(p, o, t + 1, j)
  }

  /** The backward derivation of P(O | lambda): sum of pi[i] * b[o[0]][i] * beta[0][i]. */
  function BackwardProb(p: Lambda, o: seq<int>): real
  {
    Sum(p.stateNum, BackwardStart(p, o))
  }

  function BackwardStart(p: Lambda, o: seq<int>): int -> real
  {
    i => Pi(p, i) * B(p, Sym(o, 0), i) * Beta(p, o, 0, i)
  }

  // ---------------------------------------------------------------------
  // Posteriors (train.c:87-133)

  /** alpha[t][i] * beta[t][i], the unnormalised state posterior. */
  function AlphaBeta(p: Lambda, o: seq<int>, t: nat): int -> real
  {
    i => Alpha(p, o, t, i) * Beta(p, o, t, i)
  }

  /** alpha[t][i] * a[i][j] * b[o[t+1]][j] * beta[t+1][j], the unnormalised
      state-pair posterior. */
  function PairTerms(p: Lambda, o: seq<int>, t: nat): (int, int) -> real
  {
    (i, j) => Alpha(p, o, t, i) * A(p, i, j) * B(p, Sym(o, t + 1), j) * Beta(p, o, t + 1, j)
  }

  /** delta[t][i]: the state posterior as calc_delta computes it. */
  function Gamma(p: Lambda, o: seq<int>, t: nat, i: int): real
  {
    Quot(AlphaBeta(p, o, t)(i), Sum(p.stateNum, AlphaBeta(p, o, t)))
  }

  function GammaRow(p: Lambda, o: seq<int>, t: nat): int -> real
  {
    i => Gamma(p, o, t, i)
  }

  /** The normaliser of slice t of epsilon: the sum of all pair terms. */
  function PairTotal(p: Lambda, o: seq<int>, t: nat): real
  {
    Sum(p.stateNum, RowSums(PairTerms(p, o, t), p.stateNum))
  }

  /** epsilon[t][i][j]: the state-pair posterior as baum_welch_algo computes it. */
  function Xi(p: Lambda, o: seq<int>, t: nat, i: int, j: int): real
  {
    Quot(PairTerms(p, o, t)(i, j), PairTotal(p, o, t))
  }

  function XiEntries(p: Lambda, o: seq<int>, t: nat): (int, int) -> real
  {
    (i, j) => Xi(p, o, t, i, j)
  }

  // ---------------------------------------------------------------------
  // Forward-backward agreement

  /** Row i of the pair terms sums to alpha[t][i] * beta[t][i]. */
  lemma PairRowSum(p: Lambda, o: seq<int>, t: nat, i: int)
    requires t + 1 < |o|
    ensures Sum(p.stateNum, Row(PairTerms(p, o, t), i)) == AlphaBeta(p, o, t)(i)
  {
    var G := BackwardTerms(p, o, t, i);
    PairRowFactor(p, o, t, i);
    SumScale(p.stateNum, G, Alpha(p, o, t, i), Row(PairTerms(p, o, t), i));
    BackwardNext(p, o, t, i, Sum(p.stateNum, G));
  }

  /** Row i of the pair terms is alpha[t][i] times the backward terms of beta[t][i]. */
  lemma PairRowFactor(p: Lambda, o: seq<int>, t: nat, i: int)
    requires t + 1 < |o|
    ensures forall j :: 0 <= j < p.stateNum ==>
              Row(PairTerms(p, o, t), i)(j) == Alpha(p, o, t, i) * BackwardTerms(p, o, t, i)(j)
  {
    forall j | 0 <= j < p.stateNum
      ensures Row(PairTerms(p, o, t), i)(j) == Alpha(p, o, t, i) * BackwardTerms(p, o, t, i)(j)
    {
      PairTermFactor(p, o, t, i, j);
    }
  }

  /** A pair term is alpha[t][i] times a backward term. */
  lemma PairTermFactor(p: Lambda, o: seq<int>, t: nat, i: int, j: int)
    requires t + 1 < |o|
    ensures PairTerms(p, o, t)(i, j) == Alpha(p, o, t, i) * BackwardTerms(p, o, t, i)(j)
  {
    var al, a, b, be := Alpha(p, o, t, i), A(p, i, j), B(p, Sym(o, t + 1), j), Beta(p, o, t + 1, j);
    assert PairTerms(p, o, t)(i, j) == al * a * b * be;
    assert BackwardTerms(p, o, t, i)(j) == a * b * be;
    MulAssoc4(al, a, b, be);
  }

  /** Column j of the pair terms sums to alpha[t+1][j] * beta[t+1][j]. */
  lemma PairColumnSum(p: Lambda, o: seq<int>, t: nat, j: int)
    requires t + 1 < |o|
    ensures Sum(p.stateNum, Col(PairTerms(p, o, t), j)) == AlphaBeta(p, o, t + 1)(j)
  {
    var F := PairTerms(p, o, t);
    var c := B(p, Sym(o, t + 1), j) * Beta(p, o, t + 1, j);
    forall i | 0 <= i < p.stateNum
      ensures Col(F, j)(i) == c * ForwardTerms(p, o, t, j)(i)
    {
      MulAssoc4(Alpha(p, o, t, i), A(p, i, j), B(p, Sym(o, t + 1), j), Beta(p, o, t + 1, j));
    }
    SumScale(p.stateNum, ForwardTerms(p, o, t, j), c, Col(F, j));
  }

  /** The slice sum of the pair terms is the alpha-beta row sum at t. */
  lemma PairTotalIsRowSum(p: Lambda, o: seq<int>, t: nat)
    requires t + 1 < |o|
    ensures PairTotal(p, o, t) == Sum(p.stateNum, AlphaBeta(p, o, t))
  {
    var F := PairTerms(p, o, t);
    forall i | 0 <= i < p.stateNum
      ensures RowSums(F, p.stateNum)(i) == AlphaBeta(p, o, t)(i)
    {
      PairRowSum(p, o, t, i);
    }
    SumExt(p.stateNum, RowSums(F, p.stateNum), AlphaBeta(p, o, t));
  }

  /** The forward induction written as the C loop leaves it: the accumulated
      sum times the emission of the next symbol. */
  lemma ForwardNext(p: Lambda, o: seq<int>, t: nat, j: int, accum: real, b: real)
    requires accum == Sum(p.stateNum, ForwardTerms(p, o, t, j))
    requires b == B(p, Sym(o, t + 1), j)
    ensures Alpha(p, o, t + 1, j) == accum * b
  {
  }

  /** The backward induction written as the C loop leaves it. */
  lemma BackwardNext(p: Lambda, o: seq<int>, t: nat, i: int, accum: real)
    requires t + 1 < |o|
    requires accum == Sum(p.stateNum, BackwardTerms(p, o, t, i))
    ensures Beta(p, o, t, i) == accum
  {
  }

  /** One step of the agreement: sum_i alpha[t][i] beta[t][i] does not depend on t. */
  lemma ForwardBackwardStep(p: Lambda, o: seq<int>, t: nat)
    requires t + 1 < |o|
    ensures Sum(p.stateNum, AlphaBeta(p, o, t)) == Sum(p.stateNum, AlphaBeta(p, o, t + 1))
  {
    var F := PairTerms(p, o, t);
    var n := p.stateNum;
    PairTotalIsRowSum(p, o, t);
    SumSwap(n, n, F);
    forall j | 0 <= j < n
      ensures ColSums(F, n)(j) == AlphaBeta(p, o, t + 1)(j)
    {
      PairColumnSum(p, o, t, j);
    }
    SumExt(n, ColSums(F, n), AlphaBeta(p, o, t + 1));
  }

  /** For every t, sum_i alpha[t][i] beta[t][i] = P(O | lambda). */
  lemma {:induction false} ForwardBackwardAgree(p: Lambda, o: seq<int>, t: nat)
    requires t < |o|
    ensures Sum(p.stateNum, AlphaBeta(p, o, t)) == ForwardProb(p, o)
    decreases |o| - t
  {
    if t + 1 < |o| {
      ForwardBackwardStep(p, o, t);
      ForwardBackwardAgree(p, o, t + 1);
    } else {
      SumExt(p.stateNum, AlphaBeta(p, o, t), AlphaRow(p, o, |o| - 1));
    }
  }

  /** The forward termination and the backward derivation of P(O | lambda) agree. */
  lemma ForwardEqualsBackward(p: Lambda, o: seq<int>)
    requires |o| >= 1
    ensures ForwardProb(p, o) == BackwardProb(p, o)
  {
    ForwardBackwardAgree(p, o, 0);
    SumExt(p.stateNum, AlphaBeta(p, o, 0), BackwardStart(p, o));
  }

  // ---------------------------------------------------------------------
  // Posterior normalisation

  /** Every row of the state posterior sums to 1 when P(O | lambda) != 0. */
  lemma GammaRowSumsToOne(p: Lambda, o: seq<int>, t: nat)
    requires t < |o|
    requires ForwardProb(p, o) != 0.0
    ensures Sum(p.stateNum, GammaRow(p, o, t)) == 1.0
  {
    var S := Sum(p.stateNum, AlphaBeta(p, o, t));
    ForwardBackwardAgree(p, o, t);
    SumQuot(p.stateNum, AlphaBeta(p, o, t), S, GammaRow(p, o, t));
    QuotOfSelf(S);
  }

  /** Every slice of the pair posterior sums to 1 over all (i, j). */
  lemma XiSliceSumsToOne(p: Lambda, o: seq<int>, t: nat)
    requires t + 1 < |o|
    requires ForwardProb(p, o) != 0.0
    ensures Sum(p.stateNum, RowSums(XiEntries(p, o, t), p.stateNum)) == 1.0
  {
    var n := p.stateNum;
    var S := PairTotal(p, o, t);
    PairTotalIsRowSum(p, o, t);
    ForwardBackwardAgree(p, o, t);
    var F := PairTerms(p, o, t);
    var X := XiEntries(p, o, t);
    forall i | 0 <= i < n
      ensures RowSums(X, n)(i) == Quot(RowSums(F, n)(i), S)
    {
      SumQuot(n, Row(F, i), S, Row(X, i));
    }
    SumQuot(n, RowSums(F, n), S, RowSums(X, n));
    QuotOfSelf(S);
  }

  /** Summing the pair posterior over the destination state gives the state
      posterior: sum_j epsilon[t][i][j] = delta[t][i] for t < T-1. */
  lemma XiMarginal(p: Lambda, o: seq<int>, t: nat, i: int)
    requires t + 1 < |o|
    requires ForwardProb(p, o) != 0.0
    ensures Sum(p.stateNum, Row(XiEntries(p, o, t), i)) == Gamma(p, o, t, i)
  {
    var S := PairTotal(p, o, t);
    PairTotalIsRowSum(p, o, t);
    ForwardBackwardAgree(p, o, t);
    PairRowSum(p, o, t, i);
    SumQuot(p.stateNum, Row(PairTerms(p, o, t), i), S, Row(XiEntries(p, o, t), i));
  }

  // ---------------------------------------------------------------------
  // Non-negativity

  lemma {:induction false} AlphaNonNegative(p: Lambda, o: seq<int>, t: nat)
    requires NonNegative(p)
    ensures forall j :: Alpha(p, o, t, j) >= 0.0
    decreases t
  {
    if t > 0 {
      var s := t - 1;
      AlphaNonNegative(p, o, s);
      forall j
        ensures Alpha(p, o, t, j) >= 0.0
      {
        forall i | 0 <= i < p.stateNum
          ensures ForwardTerms(p, o, s, j)(i) >= 0.0
        {
          MulNonNegative(Alpha(p, o, s, i), A(p, i, j));
        }
        SumNonNegative(p.stateNum, ForwardTerms(p, o, s, j));
        MulNonNegative(Sum(p.stateNum, ForwardTerms(p, o, s, j)), B(p, Sym(o, t), j));
      }
    } else {
      forall j
        ensures Alpha(p, o, t, j) >= 0.0
      {
        MulNonNegative(Pi(p, j), B(p, Sym(o, 0), j));
      }
    }
  }

  lemma {:induction false} BetaNonNegative(p: Lambda, o: seq<int>, t: nat)
    requires NonNegative(p)
    ensures forall i :: Beta(p, o, t, i) >= 0.0
    decreases |o| - t
  {
    if t + 1 < |o| {
      BetaNonNegative(p, o, t + 1);
      forall i
        ensures Beta(p, o, t, i) >= 0.0
      {
        forall j | 0 <= j < p.stateNum
          ensures BackwardTerms(p, o, t, i)(j) >= 0.0
        {
          MulNonNegative(A(p, i, j), B(p, Sym(o, t + 1), j));
          MulNonNegative(A(p, i, j) * B(p, Sym(o, t + 1), j), Beta(p, o, t + 1, j));
        }
        SumNonNegative(p.stateNum, BackwardTerms(p, o, t, i));
      }
    }
  }

  lemma GammaNonNegative(p: Lambda, o: seq<int>, t: nat, i: int)
    requires NonNegative(p)
    ensures Gamma(p, o, t, i) >= 0.0
  {
    AlphaNonNegative(p, o, t);
    BetaNonNegative(p, o, t);
    MulNonNegative(Alpha(p, o, t, i), Beta(p, o, t, i));
    forall k | 0 <= k < p.stateNum
      ensures AlphaBeta(p, o, t)(k) >= 0.0
    {
      MulNonNegative(Alpha(p, o, t, k), Beta(p, o, t, k));
    }
    SumNonNegative(p.stateNum, AlphaBeta(p, o, t));
    if Sum(p.stateNum, AlphaBeta(p, o, t)) != 0.0 {
      QuotNonNegative(AlphaBeta(p, o, t)(i), Sum(p.stateNum, AlphaBeta(p, o, t)));
    }
  }

  /** With non-negative parameters every pair posterior is non-negative. */
  lemma XiNonNegative(p: Lambda, o: seq<int>, t: nat, i: int, j: int)
    requires NonNegative(p)
    ensures Xi(p, o, t, i, j) >= 0.0
  {
    var n, F := p.stateNum, PairTerms(p, o, t);
    PairTermsNonNegative(p, o, t);
    forall a | 0 <= a < n
      ensures RowSums(F, n)(a) >= 0.0
    {
      SumNonNegative(n, Row(F, a));
    }
    SumNonNegative(n, RowSums(F, n));
    QuotNonNegative(F(i, j), PairTotal(p, o, t));
  }

  lemma PairTermsNonNegative(p: Lambda, o: seq<int>, t: nat)
    requires NonNegative(p)
    ensures forall i, j :: PairTerms(p, o, t)(i, j) >= 0.0
  {
    AlphaNonNegative(p, o, t);
    BetaNonNegative(p, o, t + 1);
    forall i, j
      ensures PairTerms(p, o, t)(i, j) >= 0.0
    {
      var al, a, b, be := Alpha(p, o, t, i), A(p, i, j), B(p, Sym(o, t + 1), j), Beta(p, o, t + 1, j);
      MulNonNegative(al, a);
      MulNonNegative(al * a, b);
      MulNonNegative(al * a * b, be);
    }
  }

  /** With non-negative parameters and P(O | lambda) != 0 the state posterior
      is a probability distribution over states at every t. */
  lemma GammaIsDistribution(p: Lambda, o: seq<int>, t: nat)
    requires NonNegative(p)
    requires t < |o|
    requires ForwardProb(p, o) != 0.0
    ensures forall i :: 0 <= i < p.stateNum ==> GammaRow(p, o, t)(i) >= 0.0
    ensures Sum(p.stateNum, GammaRow(p, o, t)) == 1.0
  {
    forall i | 0 <= i < p.stateNum
      ensures GammaRow(p, o, t)(i) >= 0.0
    {
      GammaNonNegative(p, o, t, i);
    }
    GammaRowSumsToOne(p, o, t);
  }
}
