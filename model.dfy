// The HMM parameters: the `HMM` struct that every part of the engine reads
// and that `train_model` overwrites in place.
//
// The struct's declaration lives in hmm.h, which is not part of this model;
// its shape is the one every use in train.c and test.c relies on:
// `state_num`, `observ_num`, `initial[i]`, `transition[i][j]` (from i to j)
// and `observation[k][j]` (symbol k in state j), each a fixed-size buffer.

module Model {
  import opened Sums

  /** The parameters as a value, lambda = (pi, A, B), on which the recurrences are defined.
      `observation` is indexed symbol first, like the C buffer. */
  datatype Lambda = Lambda(
    stateNum: nat,
    observNum: nat,
    initial: seq<real>,
    transition: seq<seq<real>>,
    observation: seq<seq<real>>)

  /** The parameter entries, total so that they can be summed over any range;
      outside the model's dimensions they are 0. */
  function Pi(p: Lambda, i: int): real
  {
    if 0 <= i < |p.initial| then p.initial[i] else 0.0
  }

  function A(p: Lambda, i: int, j: int): real
  {
    if 0 <= i < |p.transition| && 0 <= j < |p.transition[i]| then p.transition[i][j] else 0.0
  }

  function B(p: Lambda, k: int, j: int): real
  {
    if 0 <= k < |p.observation| && 0 <= j < |p.observation[k]| then p.observation[k][j] else 0.0
  }

  /** The buffers hold exactly the model's dimensions. */
  ghost predicate WellFormed(p: Lambda)
  {
    && |p.initial| == p.stateNum
    && |p.transition| == p.stateNum
    && (forall i :: 0 <= i < p.stateNum ==> |p.transition[i]| == p.stateNum)
    && |p.observation| == p.observNum
    && (forall k :: 0 <= k < p.observNum ==> |p.observation[k]| == p.stateNum)
  }

  ghost predicate NonNegative(p: Lambda)
  {
    && (forall i :: Pi(p, i) >= 0.0)
    && (forall i, j :: A(p, i, j) >= 0.0)
    && (forall k, j :: B(p, k, j) >= 0.0)
  }

  function TransitionRow(p: Lambda, i: int): int -> real
  {
    j => A(p, i, j)
  }

  function EmissionColumn(p: Lambda, j: int): int -> real
  {
    k => B(p, k, j)
  }

  function InitialEntries(p: Lambda): int -> real
  {
    i => Pi(p, i)
  }

  /** The invariant of a stochastic model: the initial vector, every
      transition row and every emission column sum to 1. */
  ghost predicate Stochastic(p: Lambda)
  {
    && Sum(p.stateNum, InitialEntries(p)) == 1.0
    && (forall i :: 0 <= i < p.stateNum ==> Sum(p.stateNum, TransitionRow(p, i)) == 1.0)
    && (forall j :: 0 <= j < p.stateNum ==> Sum(p.observNum, EmissionColumn(p, j)) == 1.0)
  }

  /** The `HMM` struct. The three parameter buffers are embedded arrays in C,
      so they are fixed here (`const`); their contents change in place. */
  class Hmm {
    var stateNum: nat
    var observNum: nat
    const initial: array<real>
    const transition: array2<real>
    const observation: array2<real>

    constructor (maxState: nat, maxObserv: nat)
      ensures stateNum == 0 && observNum == 0
      ensures initial.Length == maxState
      ensures transition.Length0 == maxState && transition.Length1 == maxState
      ensures observation.Length0 == maxObserv && observation.Length1 == maxState
      ensures fresh(initial) && fresh(transition) && fresh(observation)
    {
      stateNum, observNum := 0, 0;
      initial := new real[maxState];
      transition := new real[maxState, maxState];
      observation := new real[maxObserv, maxState];
    }

    /** The dimensions fit the buffers, and the two matrices are distinct. */
    ghost predicate Valid()
      reads this
    {
      && stateNum <= initial.Length
      && stateNum <= transition.Length0 && stateNum <= transition.Length1
      && observNum <= observation.Length0 && stateNum <= observation.Length1
      && transition != observation
    }

    /** The buffers hold the parameters p: same dimensions, same entries. */
    ghost predicate Stores(p: Lambda)
      reads this, initial, transition, observation
    {
      && Valid() && WellFormed(p)
      && p.stateNum == stateNum && p.observNum == observNum
      && (forall i :: 0 <= i < stateNum ==> Pi(p, i) == initial[i])
      && (forall i, j :: 0 <= i < stateNum && 0 <= j < stateNum ==> A(p, i, j) == transition[i, j])
      && (forall k, j :: 0 <= k < observNum && 0 <= j < stateNum ==> B(p, k, j) == observation[k, j])
    }
  }
}
