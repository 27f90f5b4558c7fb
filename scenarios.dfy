// Worked examples, evaluated exactly over the reals: a 2-state, 2-symbol
// model on the sequence [0, 1, 0] (forward score, Viterbi score and path),
// the closed-form update that one training iteration on a single sequence
// performs, a model that training leaves fixed, and a three-model
// classification.

module Scenarios {
  import opened Sums
  import opened Model
  import opened Recurrences
  import opened Reestimation
  import opened Viterbi
  import opened MyHead
  import Train
  import Test

  // ---------------------------------------------------------------------
  // A 2-state, 2-symbol model on [0, 1, 0]

  /** pi = [0.6, 0.4], a = [[0.7, 0.3], [0.4, 0.6]], and b (symbol by state)
      = [[0.5, 0.1], [0.5, 0.9]]. */
  const Example := Lambda(2, 2, [0.6, 0.4], [[0.7, 0.3], [0.4, 0.6]], [[0.5, 0.1], [0.5, 0.9]])

  const ExampleSymbols := [0, 1, 0]

  /** The forward table, entry by entry, and P(O | lambda) = 0.069616:
      alpha[0] = [0.3, 0.04], alpha[1] = [0.113, 0.1026] and
      alpha[2] = [0.06007, 0.009546]. */
  lemma ForwardExample()
    ensures Alpha(Example, ExampleSymbols, 0, 0) == 0.3 && Alpha(Example, ExampleSymbols, 0, 1) == 0.04
    ensures Alpha(Example, ExampleSymbols, 1, 0) == 0.113 && Alpha(Example, ExampleSymbols, 1, 1) == 0.1026
    ensures Alpha(Example, ExampleSymbols, 2, 0) == 0.06007 && Alpha(Example, ExampleSymbols, 2, 1) == 0.009546
    ensures ForwardProb(Example, ExampleSymbols) == 0.069616
  {
    var p, o := Example, ExampleSymbols;
    assert Alpha(p, o, 0, 0) == 0.3 && Alpha(p, o, 0, 1) == 0.04;
    assert Sum(2, ForwardTerms(p, o, 0, 0)) == 0.226;
    assert Sum(2, ForwardTerms(p, o, 0, 1)) == 0.114;
    assert Alpha(p, o, 1, 0) == 0.113 && Alpha(p, o, 1, 1) == 0.1026;
    assert Sum(2, ForwardTerms(p, o, 1, 0)) == 0.12014;
    assert Sum(2, ForwardTerms(p, o, 1, 1)) == 0.09546;
    assert Alpha(p, o, 2, 0) == 0.06007 && Alpha(p, o, 2, 1) == 0.009546;
    assert Sum(2, AlphaRow(p, o, 2)) == 0.069616;
  }

  /** The first step of the Viterbi table: delta[0] = [0.3, 0.04] and
      delta[1] = [0.105, 0.081], each maximum attained by state 0. */
  lemma ViterbiFirstStep()
    ensures Delta(Example, ExampleSymbols, 0, 0) == 0.3 && Delta(Example, ExampleSymbols, 0, 1) == 0.04
    ensures Max0(2, Candidates(Example, ExampleSymbols, 0, 0)) == 0.21
    ensures Delta(Example, ExampleSymbols, 1, 0) == 0.105 && Delta(Example, ExampleSymbols, 1, 1) == 0.081
  {
    var p, o := Example, ExampleSymbols;
    DeltaSucc(p, o, 0, 0);
    DeltaSucc(p, o, 0, 1);
    assert Candidates(p, o, 0, 0)(0) == 0.21 && Candidates(p, o, 0, 0)(1) == 0.016;
    assert Candidates(p, o, 0, 1)(0) == 0.09 && Candidates(p, o, 0, 1)(1) == 0.024;
  }

  /** The second step: delta[2] = [0.03675, 0.00486]; the maximum for state
      0 is attained by state 0, and the returned score is 0.03675. */
  lemma ViterbiSecondStep()
    ensures Max0(2, Candidates(Example, ExampleSymbols, 1, 0)) == 0.0735
    ensures Delta(Example, ExampleSymbols, 2, 0) == 0.03675 && Delta(Example, ExampleSymbols, 2, 1) == 0.00486
    ensures ViterbiProb(Example, ExampleSymbols) == 0.03675
  {
    var p, o := Example, ExampleSymbols;
    ViterbiFirstStep();
    DeltaSucc(p, o, 1, 0);
    DeltaSucc(p, o, 1, 1);
    assert Candidates(p, o, 1, 0)(0) == 0.0735 && Candidates(p, o, 1, 0)(1) == 0.0324;
    assert Candidates(p, o, 1, 1)(0) == 0.0315 && Candidates(p, o, 1, 1)(1) == 0.0486;
    assert DeltaRow(p, o, 2)(0) == 0.03675 && DeltaRow(p, o, 2)(1) == 0.00486;
  }

  /** Every maximum on the way is positive, so the backtracked path is
      [0, 0, 0] whatever arg_max and q.seq[T-1] held before, and its joint
      probability is the returned score 0.03675. */
  lemma ViterbiExample(init: int, last: int)
    ensures ViterbiProb(Example, ExampleSymbols) == 0.03675
    ensures PathSeq(Example, ExampleSymbols, init, last) == [0, 0, 0]
    ensures JointProb(Example, ExampleSymbols, [0, 0, 0], 2) == 0.03675
  {
    var p, o := Example, ExampleSymbols;
    ViterbiFirstStep();
    ViterbiSecondStep();
    assert DeltaRow(p, o, 2)(0) == 0.03675 && DeltaRow(p, o, 2)(1) == 0.00486;
    assert Path(p, o, init, last, 2) == 0;
    assert Candidates(p, o, 1, 0)(1) == 0.0324;
    assert Psi(p, o, init, 2, 0) == 0;
    assert Path(p, o, init, last, 1) == 0;
    assert Candidates(p, o, 0, 0)(1) == 0.016;
    assert Psi(p, o, init, 1, 0) == 0;
    assert Path(p, o, init, last, 0) == 0;
    var q := PathSeq(p, o, init, last);
    assert q == [0, 0, 0];
    assert JointProb(p, o, [0, 0, 0], 1) == 0.105;
  }

  // ---------------------------------------------------------------------
  // One training iteration on a single sequence

  /** gamma[t][i] over time. */
  function GammaOverTime(p: Lambda, o: seq<int>, i: int): int -> real
  {
    t => if t >= 0 then Gamma(p, o, t, i) else 0.0
  }

  /** xi[t][i][j] over time. */
  function XiOverTime(p: Lambda, o: seq<int>, i: int, j: int): int -> real
  {
    t => if t >= 0 then Xi(p, o, t, i, j) else 0.0
  }

  /** gamma[t][j] at the times symbol k is seen, 0 elsewhere. */
  function GammaSeenOverTime(p: Lambda, o: seq<int>, k: int, j: int): int -> real
  {
    t => if t >= 0 && Sym(o, t) == k then Gamma(p, o, t, j) else 0.0
  }

  /** On a batch of one sequence of length T, one iteration is the
      textbook update: pi'[i] = gamma[0][i],
      a'[i][j] = sum_{t < T-1} xi[t][i][j] / sum_{t < T-1} gamma[t][i], and
      b'[k][j] = sum_{o[t] = k} gamma[t][j] / sum_t gamma[t][j]. */
  lemma SingleSequenceUpdate(p: Lambda, ob: Observation)
    ensures forall i :: 0 <= i < p.stateNum ==>
              Pi(Train.Update(p, [ob], 1), i) == Gamma(p, Symbols(ob), 0, i)
    ensures forall i, j :: 0 <= i < p.stateNum && 0 <= j < p.stateNum ==>
              A(Train.Update(p, [ob], 1), i, j) ==
              Quot(Sum(ob.seqNum - 1, XiOverTime(p, Symbols(ob), i, j)), Sum(ob.seqNum - 1, GammaOverTime(p, Symbols(ob), i)))
    ensures forall k, j :: 0 <= k < p.observNum && 0 <= j < p.stateNum ==>
              B(Train.Update(p, [ob], 1), k, j) ==
              Quot(Sum(ob.seqNum, GammaSeenOverTime(p, Symbols(ob), k, j)), Sum(ob.seqNum, GammaOverTime(p, Symbols(ob), j)))
  {
    var N, M := p.stateNum, p.observNum;
    ReestimateEntries(Train.CountsOf(p, [ob], 1), N, M);
    forall i | 0 <= i < N {
      SingleSequenceDenominators(p, ob, i);
    }
    forall i, j | 0 <= i < N && 0 <= j < N {
      SingleSequenceTransitions(p, ob, i, j);
    }
    forall k, j | 0 <= k < M && 0 <= j < N {
      SingleSequenceEmissions(p, ob, k, j);
    }
  }

  /** The batch totals of a single sequence are its sums over time. */
  lemma SingleSequenceDenominators(p: Lambda, ob: Observation, i: int)
    ensures TransDen(Train.CountsOf(p, [ob], 1), i) == Sum(ob.seqNum - 1, GammaOverTime(p, Symbols(ob), i))
    ensures EmitDen(Train.CountsOf(p, [ob], 1), i) == Sum(ob.seqNum, GammaOverTime(p, Symbols(ob), i))
  {
    var c := Train.CountsOf(p, [ob], 1);
    SumExt(ob.seqNum - 1, Along(c.gam, 0, i), GammaOverTime(p, Symbols(ob), i));
    SumExt(ob.seqNum, Along(c.gam, 0, i), GammaOverTime(p, Symbols(ob), i));
  }

  lemma SingleSequenceTransitions(p: Lambda, ob: Observation, i: int, j: int)
    ensures TransNum(Train.CountsOf(p, [ob], 1), i, j) == Sum(ob.seqNum - 1, XiOverTime(p, Symbols(ob), i, j))
  {
    var c := Train.CountsOf(p, [ob], 1);
    SumExt(ob.seqNum - 1, Along(XiFrom(c, i), 0, j), XiOverTime(p, Symbols(ob), i, j));
  }

  lemma SingleSequenceEmissions(p: Lambda, ob: Observation, k: int, j: int)
    ensures EmitNum(Train.CountsOf(p, [ob], 1), k, j) == Sum(ob.seqNum, GammaSeenOverTime(p, Symbols(ob), k, j))
  {
    var c := Train.CountsOf(p, [ob], 1);
    SumExt(ob.seqNum, Along(GamSeen(c, j), 0, k), GammaSeenOverTime(p, Symbols(ob), k, j));
  }

  // ---------------------------------------------------------------------
  // One-state models

  /** A 1-state model over two symbols that emits symbol 0 with
      probability x. */
  function OneState(x: real): Lambda
  {
    Lambda(1, 2, [1.0], [[1.0]], [[x], [1.0 - x]])
  }

  /** The sequence [0, 1]. */
  const Pair := Observation(2, [0, 1])

  /** Under a 1-state model the forward score of [0, 1] is the product of
      its emissions, x * (1 - x). */
  lemma OneStateForward(x: real)
    ensures Alpha(OneState(x), [0, 1], 0, 0) == x
    ensures Alpha(OneState(x), [0, 1], 1, 0) == x * (1.0 - x)
    ensures ForwardProb(OneState(x), [0, 1]) == x * (1.0 - x)
  {
    var p, o := OneState(x), [0, 1];
    assert Sum(1, ForwardTerms(p, o, 0, 0)) == x;
    assert Sum(1, AlphaRow(p, o, 1)) == x * (1.0 - x);
  }

  /** The backward table of [0, 1] under a 1-state model, and the
      products alpha * beta and the pair term they give. */
  lemma OneStateBackward(x: real)
    ensures Beta(OneState(x), [0, 1], 1, 0) == 1.0
    ensures Beta(OneState(x), [0, 1], 0, 0) == 1.0 - x
    ensures AlphaBeta(OneState(x), [0, 1], 0)(0) == x * (1.0 - x)
    ensures AlphaBeta(OneState(x), [0, 1], 1)(0) == x * (1.0 - x)
    ensures PairTerms(OneState(x), [0, 1], 0)(0, 0) == x * (1.0 - x)
  {
    var p, o := OneState(x), [0, 1];
    OneStateForward(x);
    assert Sum(1, BackwardTerms(p, o, 0, 0)) == 1.0 - x;
  }

  /** With one state every posterior is 1 wherever the sequence has
      nonzero probability. */
  lemma OneStatePosteriors(x: real)
    requires 0.0 < x < 1.0
    ensures Gamma(OneState(x), [0, 1], 0, 0) == 1.0
    ensures Gamma(OneState(x), [0, 1], 1, 0) == 1.0
    ensures Xi(OneState(x), [0, 1], 0, 0, 0) == 1.0
  {
    var p, o, v := OneState(x), [0, 1], x * (1.0 - x);
    OneStateBackward(x);
    assert v > 0.0;
    QuotOfSelf(v);
    assert Sum(1, AlphaBeta(p, o, 0)) == v;
    assert Sum(1, AlphaBeta(p, o, 1)) == v;
    assert Sum(1, Row(PairTerms(p, o, 0), 0)) == v;
    assert PairTotal(p, o, 0) == v;
  }

  /** One iteration on [0, 1] turns any 1-state model with 0 < x < 1 into
      the model of the symbol frequencies, x = 1/2. */
  lemma OneStateUpdate(x: real)
    requires 0.0 < x < 1.0
    ensures Train.Update(OneState(x), [Pair], 1) == OneState(0.5)
  {
    var p, o, U := OneState(x), [0, 1], Train.Update(OneState(x), [Pair], 1);
    assert Symbols(Pair) == o;
    SingleSequenceUpdate(p, Pair);
    OneStatePosteriors(x);
    assert Sum(1, GammaOverTime(p, o, 0)) == 1.0;
    assert Sum(1, XiOverTime(p, o, 0, 0)) == 1.0;
    assert Sum(2, GammaOverTime(p, o, 0)) == 2.0;
    assert Sum(2, GammaSeenOverTime(p, o, 0, 0)) == 1.0;
    assert Sum(2, GammaSeenOverTime(p, o, 1, 0)) == 1.0;
    assert Pi(U, 0) == 1.0 && A(U, 0, 0) == 1.0 && B(U, 0, 0) == 0.5 && B(U, 1, 0) == 0.5;
    assert U.initial == [1.0];
    assert U.transition[0] == [1.0];
    assert U.transition == [[1.0]];
    assert U.observation[0] == [0.5] && U.observation[1] == [0.5];
    assert U.observation == [[0.5], [0.5]];
  }

  /** The frequency model is a fixed point of training on [0, 1]: however
      many iterations run, the model does not change. Every other 1-state
      model with 0 < x < 1 reaches it after the first iteration. */
  lemma OneStateFixedPoint(x: real, k: nat)
    requires 0.0 < x < 1.0
    ensures Train.Iterate(OneState(0.5), [Pair], 1, k) == OneState(0.5)
    ensures k >= 1 ==> Train.Iterate(OneState(x), [Pair], 1, k) == OneState(0.5)
  {
    OneStateUpdate(0.5);
    Train.FixedPointStays(OneState(0.5), [Pair], 1, k);
    if k >= 1 {
      OneStateUpdate(x);
      Train.FixedPointStays(OneState(0.5), [Pair], 1, k - 1);
    }
  }

  // ---------------------------------------------------------------------
  // Classification with three 1-state models

  /** Models emitting symbol 0 with probability 0.8, 0.5 and 0.2. */
  const Voters := [OneState(0.8), OneState(0.5), OneState(0.2)]

  /** The test [0, 1] scores 0.16, 0.25 and 0.16. The middle model is the
      strict maximum, so it is the label, and its score the likelihood. */
  lemma ClassifyExample(init: int)
    ensures Test.Scores(Voters, [0, 1])(0) == 0.16
    ensures Test.Scores(Voters, [0, 1])(1) == 0.25
    ensures Test.Scores(Voters, [0, 1])(2) == 0.16
    ensures Test.Likelihood(Voters, [0, 1]) == 0.25
    ensures Test.Preds(Voters, [Pair], init, 1) == [1]
  {
    OneStateForward(0.8);
    OneStateForward(0.5);
    OneStateForward(0.2);
    var f := Test.Scores(Voters, [0, 1]);
    assert f(0) == 0.16 && f(1) == 0.25 && f(2) == 0.16;
    assert Max0(1, f) == 0.16 && Max0(2, f) == 0.25;
    assert ArgMax0(3, f, init) == 1;
    assert Symbols([Pair][0]) == [0, 1];
    assert Test.Pred(Voters, [Pair], init, 0) == 1;
  }
}
