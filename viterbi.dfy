// The max-product recurrence of viterbi_algo (test.c:12-62) as functions of
// a parameter value `p` and a symbol sequence `o`, with the back-pointers it
// records under the strict `>` comparison and the path it backtracks. The
// lemmas state what the recurrence means: delta[t][j] is the largest joint
// probability of a state path ending in j, the backtracked path attains the
// returned score, and that score never exceeds P(O | lambda).

module Viterbi {
  import opened Sums
  import opened Model
  import opened Recurrences

  // ---------------------------------------------------------------------
  // The delta table (test.c:22-39)

  /** Row t of delta: pi[j] * b[o[0]][j] for t = 0, and afterwards the
      running maximum of delta[t-1][i] * a[i][j] (which starts at 0) times
      b[o[t]][j]. */
  function DeltaRow(p: Lambda, o: seq<int>, t: nat): int -> real
    decreases t
  {
    if t == 0 then j => Pi(p, j) * B(p, Sym(o, 0), j)
    else
      var prev := DeltaRow(p, o, t - 1);
      j => Max0(p.stateNum, Weighted(prev, p, j)) * B(p, Sym(o, t), j)
  }

  /** The candidates row(i) * a[i][j] for i = 0, 1, ... */
  function Weighted(row: int -> real, p: Lambda, j: int): int -> real
  {
    i => row(i) * A(p, i, j)
  }

  /** delta[t][j]. */
  function Delta(p: Lambda, o: seq<int>, t: nat, j: int): real
  {
    DeltaRow(p, o, t)(j)
  }

  /** The candidates delta[t][i] * a[i][j] compared for delta[t+1][j]. */
  function Candidates(p: Lambda, o: seq<int>, t: nat, j: int): int -> real
  {
    Weighted(DeltaRow(p, o, t), p, j)
  }

  /** The recurrence, one entry at a time. */
  lemma DeltaAt(p: Lambda, o: seq<int>, t: nat, j: int)
    ensures Delta(p, o, 0, j) == Pi(p, j) * B(p, Sym(o, 0), j)
    ensures Delta(p, o, t + 1, j) == Max0(p.stateNum, Candidates(p, o, t, j)) * B(p, Sym(o, t + 1), j)
    ensures forall i :: Candidates(p, o, t, j)(i) == Delta(p, o, t, i) * A(p, i, j)
  {
  }

  /** The recurrence for delta[t+1][j] alone. */
  lemma DeltaSucc(p: Lambda, o: seq<int>, t: nat, j: int)
    ensures Delta(p, o, t + 1, j) == Max0(p.stateNum, Candidates(p, o, t, j)) * B(p, Sym(o, t + 1), j)
  {
  }

  /** The returned score: the running maximum of the last row of delta. */
  function ViterbiProb(p: Lambda, o: seq<int>): real
  {
    if |o| == 0 then 0.0 else Max0(p.stateNum, DeltaRow(p, o, |o| - 1))
  }

  // ---------------------------------------------------------------------
  // Back-pointers (test.c:29-40)

  /** psi[t][j] for t >= 1: the index arg_max holds once the candidates for
      delta[t][j] have been compared. The variable is shared by all (t, j)
      and only assigned on a strictly larger candidate, so when none is
      positive it keeps the value it had before, `PsiBefore`; `init` is
      the value it has before the first comparison. */
  function Psi(p: Lambda, o: seq<int>, init: int, t: nat, j: int): int
    decreases t, j, 1
  {
    if t == 0 then init
    else ArgMax0(p.stateNum, Candidates(p, o, t - 1, j), PsiBefore(p, o, init, t, j))
  }

  /** arg_max just before the candidates for delta[t][j] are compared: the
      pointer recorded for the previous state of row t, the last of row t-1,
      or `init`. */
  function PsiBefore(p: Lambda, o: seq<int>, init: int, t: nat, j: int): int
    decreases t, j, 0
  {
    if j > 0 then Psi(p, o, init, t, j - 1)
    else if t > 1 then Psi(p, o, init, t - 1, p.stateNum - 1)
    else init
  }

  // ---------------------------------------------------------------------
  // Termination and backtracking (test.c:45-59)

  /** q[t]: the index of the largest entry of the last row of delta (`last`
      when none is positive: q.seq[T-1] is only assigned on a larger one),
      and q[t] = psi[t+1][q[t+1]] before that. */
  function Path(p: Lambda, o: seq<int>, init: int, last: int, t: nat): int
    decreases |o| - t
  {
    if |o| == 0 then last
    else if t + 1 >= |o| then ArgMax0(p.stateNum, DeltaRow(p, o, |o| - 1), last)
    else Psi(p, o, init, t + 1, Path(p, o, init, last, t + 1))
  }

  /** The whole backtracked path q[0..T-1]. */
  function PathSeq(p: Lambda, o: seq<int>, init: int, last: int): (q: seq<int>)
    ensures |q| == |o| && forall t :: 0 <= t < |o| ==> q[t] == Path(p, o, init, last, t)
  {
    seq(|o|, t requires 0 <= t < |o| => Path(p, o, init, last, t))
  }

  /** The joint probability of the states s[0..t] and the symbols o[0..t]:
      pi[s0] b[o0][s0] a[s0][s1] b[o1][s1] ... a[s(t-1)][st] b[ot][st]. */
  function JointProb(p: Lambda, o: seq<int>, s: seq<int>, t: nat): real
    requires t < |s|
  {
    if t == 0 then Pi(p, s[0]) * B(p, Sym(o, 0), s[0])
    else JointProb(p, o, s, t - 1) * A(p, s[t - 1], s[t]) * B(p, Sym(o, t), s[t])
  }

  // ---------------------------------------------------------------------
  // Tie-breaking

  /** psi[t+1][j] is the LOWEST index whose candidate attains a positive
      maximum; when no candidate is positive, psi keeps the old value of
      arg_max. */
  lemma PsiLowest(p: Lambda, o: seq<int>, init: int, t: nat, j: int)
    ensures var c, k := Candidates(p, o, t, j), Psi(p, o, init, t + 1, j);
            Max0(p.stateNum, c) > 0.0 ==>
              && 0 <= k < p.stateNum && c(k) == Max0(p.stateNum, c)
              && forall i :: 0 <= i < k ==> c(i) < Max0(p.stateNum, c)
    ensures Max0(p.stateNum, Candidates(p, o, t, j)) == 0.0 ==>
              Psi(p, o, init, t + 1, j) == PsiBefore(p, o, init, t + 1, j)
  {
    ArgMax0Spec(p.stateNum, Candidates(p, o, t, j), PsiBefore(p, o, init, t + 1, j));
  }

  /** q[T-1] is the lowest index of a positive maximum of the last row of
      delta, and the returned score is at least every entry of that row. */
  lemma LastLowest(p: Lambda, o: seq<int>, init: int, last: int, t: nat)
    requires t + 1 == |o|
    ensures forall i :: 0 <= i < p.stateNum ==> Delta(p, o, t, i) <= ViterbiProb(p, o)
    ensures ViterbiProb(p, o) >= 0.0
    ensures var k := Path(p, o, init, last, t);
            ViterbiProb(p, o) > 0.0 ==>
              && 0 <= k < p.stateNum && Delta(p, o, t, k) == ViterbiProb(p, o)
              && forall i :: 0 <= i < k ==> Delta(p, o, t, i) < ViterbiProb(p, o)
    ensures ViterbiProb(p, o) == 0.0 ==> Path(p, o, init, last, t) == last
  {
    var row := DeltaRow(p, o, t);
    assert ViterbiProb(p, o) == Max0(p.stateNum, row);
    assert Path(p, o, init, last, t) == ArgMax0(p.stateNum, row, last);
    ArgMax0Spec(p.stateNum, row, last);
    Max0Bounds(p.stateNum, row);
    forall i | 0 <= i < p.stateNum
      ensures Delta(p, o, t, i) <= ViterbiProb(p, o)
    {
      assert row(i) == Delta(p, o, t, i);
    }
    var k := Path(p, o, init, last, t);
    forall i | 0 <= i < k
      ensures ViterbiProb(p, o) > 0.0 ==> Delta(p, o, t, i) < ViterbiProb(p, o)
    {
      assert row(i) == Delta(p, o, t, i);
    }
  }

  // ---------------------------------------------------------------------
  // Back-pointers stay in range

  /** When arg_max starts as one of the states, every pointer is a state. */
  lemma {:induction false} PsiInRange(p: Lambda, o: seq<int>, init: int, t: nat, j: int)
    requires 0 <= init < p.stateNum
    ensures 0 <= Psi(p, o, init, t, j) < p.stateNum
    ensures 0 <= PsiBefore(p, o, init, t, j) < p.stateNum
    decreases t, j
  {
    if j > 0 {
      PsiInRange(p, o, init, t, j - 1);
    } else if t > 1 {
      PsiInRange(p, o, init, t - 1, p.stateNum - 1);
    }
    if t > 0 {
      ArgMax0Spec(p.stateNum, Candidates(p, o, t - 1, j), PsiBefore(p, o, init, t, j));
      Max0Bounds(p.stateNum, Candidates(p, o, t - 1, j));
    }
  }

  /** When arg_max and q[T-1] start as states, the whole path is made of
      states. */
  lemma {:induction false} PathInRange(p: Lambda, o: seq<int>, init: int, last: int, t: nat)
    requires 0 <= init < p.stateNum && 0 <= last < p.stateNum
    ensures 0 <= Path(p, o, init, last, t) < p.stateNum
    decreases |o| - t
  {
    if |o| > 0 && t + 1 >= |o| {
      var row := DeltaRow(p, o, |o| - 1);
      assert Path(p, o, init, last, t) == ArgMax0(p.stateNum, row, last);
      ArgMax0Spec(p.stateNum, row, last);
      Max0Bounds(p.stateNum, row);
    } else if |o| > 0 {
      PsiInRange(p, o, init, t + 1, Path(p, o, init, last, t + 1));
    }
  }

  // ---------------------------------------------------------------------
  // Optimality

  lemma {:induction false} DeltaNonNegative(p: Lambda, o: seq<int>, t: nat)
    requires NonNegative(p)
    ensures forall j :: Delta(p, o, t, j) >= 0.0
    decreases t
  {
    forall j
      ensures Delta(p, o, t, j) >= 0.0
    {
      if t == 0 {
        MulNonNegative(Pi(p, j), B(p, Sym(o, 0), j));
      } else {
        Max0Bounds(p.stateNum, Candidates(p, o, t - 1, j));
        MulNonNegative(Max0(p.stateNum, Candidates(p, o, t - 1, j)), B(p, Sym(o, t), j));
      }
    }
  }

  /** With non-negative parameters, delta[t][s[t]] bounds the joint
      probability of every state sequence s up to t: the maximum over
      paths. */
  lemma {:induction false} JointLeDelta(p: Lambda, o: seq<int>, s: seq<int>, t: nat)
    requires NonNegative(p) && t < |s|
    requires forall k :: 0 <= k < |s| ==> 0 <= s[k] < p.stateNum
    ensures JointProb(p, o, s, t) <= Delta(p, o, t, s[t])
    decreases t
  {
    if t > 0 {
      JointLeDelta(p, o, s, t - 1);
      JointStep(p, o, s, t - 1);
    }
  }

  /** One step of the recursion of JointProb, written out. */
  lemma JointUnfold(p: Lambda, o: seq<int>, s: seq<int>, t: nat)
    requires t + 1 < |s|
    ensures JointProb(p, o, s, t + 1) == JointProb(p, o, s, t) * A(p, s[t], s[t + 1]) * B(p, Sym(o, t + 1), s[t + 1])
  {
  }

  /** Every candidate for delta[t+1][j] is at most their maximum. */
  lemma CandidateLe(p: Lambda, o: seq<int>, t: nat, i: int, j: int)
    requires 0 <= i < p.stateNum
    ensures Delta(p, o, t, i) * A(p, i, j) <= Max0(p.stateNum, Candidates(p, o, t, j))
  {
    DeltaAt(p, o, t, j);
    Max0Bounds(p.stateNum, Candidates(p, o, t, j));
  }

  /** delta[t][i] * a[i][j] * b[o[t+1]][j] never exceeds delta[t+1][j]. */
  lemma CandidateStep(p: Lambda, o: seq<int>, t: nat, i: int, j: int)
    requires NonNegative(p) && 0 <= i < p.stateNum
    ensures Delta(p, o, t, i) * A(p, i, j) * B(p, Sym(o, t + 1), j) <= Delta(p, o, t + 1, j)
  {
    CandidateLe(p, o, t, i, j);
    DeltaAt(p, o, t, j);
    MulLe(Delta(p, o, t, i) * A(p, i, j), Max0(p.stateNum, Candidates(p, o, t, j)), B(p, Sym(o, t + 1), j));
  }

  /** x <= d and d * a * b <= y give x * a * b <= y for a, b >= 0. */
  lemma ChainLe(x: real, d: real, a: real, b: real, y: real)
    requires x <= d && 0.0 <= a && 0.0 <= b && d * a * b <= y
    ensures x * a * b <= y
  {
    MulLe(x, d, a);
    MulLe(x * a, d * a, b);
  }

  /** A value at most delta[t][i], carried along the transition from i to j
      and the emission at t + 1, is at most delta[t+1][j]. */
  lemma DeltaStepBound(p: Lambda, o: seq<int>, t: nat, i: int, j: int, x: real)
    requires NonNegative(p) && 0 <= i < p.stateNum && x <= Delta(p, o, t, i)
    ensures x * A(p, i, j) * B(p, Sym(o, t + 1), j) <= Delta(p, o, t + 1, j)
  {
    CandidateStep(p, o, t, i, j);
    ChainLe(x, Delta(p, o, t, i), A(p, i, j), B(p, Sym(o, t + 1), j), Delta(p, o, t + 1, j));
  }

  /** One step of the induction of JointLeDelta. */
  lemma JointStep(p: Lambda, o: seq<int>, s: seq<int>, t: nat)
    requires NonNegative(p) && t + 1 < |s|
    requires 0 <= s[t] < p.stateNum
    requires JointProb(p, o, s, t) <= Delta(p, o, t, s[t])
    ensures JointProb(p, o, s, t + 1) <= Delta(p, o, t + 1, s[t + 1])
  {
    DeltaStepBound(p, o, t, s[t], s[t + 1], JointProb(p, o, s, t));
    JointUnfold(p, o, s, t);
  }

  /** When the returned score is positive, every step of the backtracked
      path is one of the states and keeps delta positive along the way. */
  lemma {:induction false} PathPositive(p: Lambda, o: seq<int>, init: int, last: int, t: nat)
    requires NonNegative(p) && |o| >= 1 && ViterbiProb(p, o) > 0.0 && t < |o|
    ensures 0 <= Path(p, o, init, last, t) < p.stateNum
    ensures Delta(p, o, t, Path(p, o, init, last, t)) > 0.0
    decreases |o| - t
  {
    if t + 1 >= |o| {
      LastLowest(p, o, init, last, t);
    } else {
      PathPositive(p, o, init, last, t + 1);
      PathUnfold(p, o, init, last, t);
      PsiStep(p, o, init, t, Path(p, o, init, last, t + 1));
    }
  }

  /** A positive product with a non-negative left factor has a positive
      left factor. */
  lemma PositiveFactor(x: real, y: real, z: real)
    requires x >= 0.0 && z == x * y && z > 0.0
    ensures x > 0.0
  {
    assert x == 0.0 ==> x * y == 0.0;
  }

  /** A positive entry delta[t+1][j] has a positive maximal candidate. */
  lemma MaxCandidatePositive(p: Lambda, o: seq<int>, t: nat, j: int)
    requires Delta(p, o, t + 1, j) > 0.0
    ensures Max0(p.stateNum, Candidates(p, o, t, j)) > 0.0
  {
    DeltaAt(p, o, t, j);
    Max0Bounds(p.stateNum, Candidates(p, o, t, j));
    PositiveFactor(Max0(p.stateNum, Candidates(p, o, t, j)), B(p, Sym(o, t + 1), j), Delta(p, o, t + 1, j));
  }

  /** When the maximal candidate is positive, psi[t+1][j] is a state whose
      candidate is that maximum. */
  lemma PsiAttains(p: Lambda, o: seq<int>, init: int, t: nat, j: int)
    requires Max0(p.stateNum, Candidates(p, o, t, j)) > 0.0
    ensures 0 <= Psi(p, o, init, t + 1, j) < p.stateNum
    ensures Delta(p, o, t, Psi(p, o, init, t + 1, j)) * A(p, Psi(p, o, init, t + 1, j), j)
            == Max0(p.stateNum, Candidates(p, o, t, j))
  {
    PsiLowest(p, o, init, t, j);
    DeltaAt(p, o, t, j);
  }

  /** y == m * b and c == m give y == c * b. */
  lemma ProductSubst(y: real, m: real, b: real, c: real)
    requires y == m * b && c == m
    ensures y == c * b
  {
  }

  /** Products of equal factors are equal. */
  lemma EqualProducts(y: real, x: real, a: real, b: real, z: real, x': real, a': real, b': real)
    requires y == x * a * b && z == x' * a' * b'
    requires x == x' && a == a' && b == b'
    ensures y == z
  {
  }

  /** Backtracking follows psi: q[t] = psi[t+1][q[t+1]]. */
  lemma PathUnfold(p: Lambda, o: seq<int>, init: int, last: int, t: nat)
    requires t + 1 < |o|
    ensures Path(p, o, init, last, t) == Psi(p, o, init, t + 1, Path(p, o, init, last, t + 1))
  {
  }

  /** A state k whose candidate is the positive maximum for delta[t+1][j]
      has delta[t][k] > 0, and delta[t+1][j] is the product along k. */
  lemma AttainingStep(p: Lambda, o: seq<int>, t: nat, j: int, k: int)
    requires NonNegative(p)
    requires Delta(p, o, t, k) * A(p, k, j) == Max0(p.stateNum, Candidates(p, o, t, j)) > 0.0
    ensures Delta(p, o, t, k) > 0.0
    ensures Delta(p, o, t + 1, j) == Delta(p, o, t, k) * A(p, k, j) * B(p, Sym(o, t + 1), j)
  {
    DeltaSucc(p, o, t, j);
    ProductSubst(Delta(p, o, t + 1, j), Max0(p.stateNum, Candidates(p, o, t, j)), B(p, Sym(o, t + 1), j), Delta(p, o, t, k) * A(p, k, j));
    DeltaNonNegative(p, o, t);
    PositiveFactor(Delta(p, o, t, k), A(p, k, j), Max0(p.stateNum, Candidates(p, o, t, j)));
  }

  /** One step of backtracking from a positive entry delta[t+1][j]: the
      pointer psi[t+1][j] is a state whose candidate is the maximum, so
      delta is positive there too. */
  lemma PsiStep(p: Lambda, o: seq<int>, init: int, t: nat, j: int)
    requires NonNegative(p) && Delta(p, o, t + 1, j) > 0.0
    ensures 0 <= Psi(p, o, init, t + 1, j) < p.stateNum
    ensures Delta(p, o, t, Psi(p, o, init, t + 1, j)) > 0.0
    ensures Delta(p, o, t + 1, j)
            == Delta(p, o, t, Psi(p, o, init, t + 1, j)) * A(p, Psi(p, o, init, t + 1, j), j) * B(p, Sym(o, t + 1), j)
  {
    MaxCandidatePositive(p, o, t, j);
    PsiAttains(p, o, init, t, j);
    AttainingStep(p, o, t, j, Psi(p, o, init, t + 1, j));
  }

  /** The backtracked path is linked wherever the returned score is
      positive. */
  lemma PathLink(p: Lambda, o: seq<int>, init: int, last: int, u: nat)
    requires NonNegative(p) && ViterbiProb(p, o) > 0.0 && u + 1 < |o|
    ensures Delta(p, o, u + 1, Path(p, o, init, last, u + 1))
            == Delta(p, o, u, Path(p, o, init, last, u)) * A(p, Path(p, o, init, last, u), Path(p, o, init, last, u + 1))
               * B(p, Sym(o, u + 1), Path(p, o, init, last, u + 1))
  {
    PathPositive(p, o, init, last, u + 1);
    PsiStep(p, o, init, u, Path(p, o, init, last, u + 1));
    PathLinkUnfold(p, o, init, last, u);
  }

  /** PsiStep at q[u+1] is the link between q[u] and q[u+1]. */
  lemma PathLinkUnfold(p: Lambda, o: seq<int>, init: int, last: int, u: nat)
    requires u + 1 < |o|
    requires Delta(p, o, u + 1, Path(p, o, init, last, u + 1))
             == Delta(p, o, u, Psi(p, o, init, u + 1, Path(p, o, init, last, u + 1)))
                * A(p, Psi(p, o, init, u + 1, Path(p, o, init, last, u + 1)), Path(p, o, init, last, u + 1))
                * B(p, Sym(o, u + 1), Path(p, o, init, last, u + 1))
    ensures Delta(p, o, u + 1, Path(p, o, init, last, u + 1))
            == Delta(p, o, u, Path(p, o, init, last, u)) * A(p, Path(p, o, init, last, u), Path(p, o, init, last, u + 1))
               * B(p, Sym(o, u + 1), Path(p, o, init, last, u + 1))
  {
    PathUnfold(p, o, init, last, u);
  }

  /** Every state sequence attains delta at time 0. */
  lemma JointBase(p: Lambda, o: seq<int>, s: seq<int>)
    requires |s| > 0
    ensures JointProb(p, o, s, 0) == Delta(p, o, 0, s[0])
  {
    DeltaAt(p, o, 0, s[0]);
  }

  /** One step along a state sequence q: when q attains delta at t and
      delta at t+1 is reached from q[t] by one transition and emission, q
      attains delta at t+1. */
  lemma AttainsStep(p: Lambda, o: seq<int>, q: seq<int>, t: nat, k: int, j: int)
    requires t + 1 < |q| && q[t] == k && q[t + 1] == j
    requires Delta(p, o, t + 1, j) == Delta(p, o, t, k) * A(p, k, j) * B(p, Sym(o, t + 1), j)
    requires JointProb(p, o, q, t) == Delta(p, o, t, q[t])
    ensures JointProb(p, o, q, t + 1) == Delta(p, o, t + 1, q[t + 1])
  {
    JointUnfold(p, o, q, t);
    EqualProducts(JointProb(p, o, q, t + 1), JointProb(p, o, q, t), A(p, q[t], q[t + 1]), B(p, Sym(o, t + 1), q[t + 1]),
                  Delta(p, o, t + 1, j), Delta(p, o, t, k), A(p, k, j), B(p, Sym(o, t + 1), j));
  }

  /** AttainsStep along the backtracked path. */
  lemma PathJointStep(p: Lambda, o: seq<int>, init: int, last: int, q: seq<int>, t: nat)
    requires t + 1 < |q| == |o|
    requires q[t] == Path(p, o, init, last, t) && q[t + 1] == Path(p, o, init, last, t + 1)
    requires Delta(p, o, t + 1, Path(p, o, init, last, t + 1))
             == Delta(p, o, t, Path(p, o, init, last, t)) * A(p, Path(p, o, init, last, t), Path(p, o, init, last, t + 1))
                * B(p, Sym(o, t + 1), Path(p, o, init, last, t + 1))
    requires JointProb(p, o, q, t) == Delta(p, o, t, q[t])
    ensures JointProb(p, o, q, t + 1) == Delta(p, o, t + 1, q[t + 1])
  {
    AttainsStep(p, o, q, t, Path(p, o, init, last, t), Path(p, o, init, last, t + 1));
  }

  /** q[0..t] is the backtracked path. */
  ghost predicate Follows(p: Lambda, o: seq<int>, init: int, last: int, q: seq<int>, t: nat)
    requires t < |q|
    decreases t
  {
    q[t] == Path(p, o, init, last, t) && (t == 0 || Follows(p, o, init, last, q, t - 1))
  }

  lemma {:induction false} PathSeqFollows(p: Lambda, o: seq<int>, init: int, last: int, t: nat)
    requires t < |o|
    ensures Follows(p, o, init, last, PathSeq(p, o, init, last), t)
    decreases t
  {
    if t > 0 {
      PathSeqFollows(p, o, init, last, t - 1);
    }
  }

  /** The induction step of PathAttains. */
  lemma PathAttainsStep(p: Lambda, o: seq<int>, init: int, last: int, q: seq<int>, t: nat)
    requires NonNegative(p) && ViterbiProb(p, o) > 0.0 && t + 1 < |q| == |o|
    requires q[t] == Path(p, o, init, last, t) && q[t + 1] == Path(p, o, init, last, t + 1)
    requires JointProb(p, o, q, t) == Delta(p, o, t, q[t])
    ensures JointProb(p, o, q, t + 1) == Delta(p, o, t + 1, q[t + 1])
  {
    PathLink(p, o, init, last, t);
    PathJointStep(p, o, init, last, q, t);
  }

  /** When the returned score is positive, the backtracked path attains
      delta at every step. */
  lemma {:induction false} PathAttains(p: Lambda, o: seq<int>, init: int, last: int, q: seq<int>, t: nat)
    requires NonNegative(p) && ViterbiProb(p, o) > 0.0 && t < |q| == |o|
    requires Follows(p, o, init, last, q, t)
    ensures JointProb(p, o, q, t) == Delta(p, o, t, q[t])
    decreases t
  {
    if t == 0 {
      JointBase(p, o, q);
    } else {
      PathAttains(p, o, init, last, q, t - 1);
      assert q[t - 1] == Path(p, o, init, last, t - 1);
      PathAttainsStep(p, o, init, last, q, t - 1);
    }
  }

  /** The Viterbi theorem for the returned score: no state path is more
      likely than it, and when it is positive the backtracked path has
      exactly that probability. */
  lemma ViterbiOptimal(p: Lambda, o: seq<int>, init: int, last: int)
    requires NonNegative(p) && |o| >= 1
    ensures forall s :: |s| == |o| && (forall t :: 0 <= t < |s| ==> 0 <= s[t] < p.stateNum) ==>
              JointProb(p, o, s, |o| - 1) <= ViterbiProb(p, o)
    ensures ViterbiProb(p, o) > 0.0 ==>
              JointProb(p, o, PathSeq(p, o, init, last), |o| - 1) == ViterbiProb(p, o)
  {
    var t := |o| - 1;
    LastLowest(p, o, init, last, t);
    forall s | |s| == |o| && (forall k :: 0 <= k < |s| ==> 0 <= s[k] < p.stateNum)
      ensures JointProb(p, o, s, t) <= ViterbiProb(p, o)
    {
      JointLeDelta(p, o, s, t);
    }
    if ViterbiProb(p, o) > 0.0 {
      var q := PathSeq(p, o, init, last);
      PathSeqFollows(p, o, init, last, t);
      PathAttains(p, o, init, last, q, t);
    }
  }

  // ---------------------------------------------------------------------
  // Viterbi against forward

  /** With non-negative parameters delta never exceeds alpha: a maximum of
      non-negative terms is at most their sum. */
  lemma {:induction false} DeltaLeAlpha(p: Lambda, o: seq<int>, t: nat)
    requires NonNegative(p)
    ensures forall j :: Delta(p, o, t, j) <= Alpha(p, o, t, j)
    decreases t
  {
    if t > 0 {
      DeltaLeAlpha(p, o, t - 1);
      DeltaNonNegative(p, o, t - 1);
      AlphaNonNegative(p, o, t - 1);
      forall j
        ensures Delta(p, o, t, j) <= Alpha(p, o, t, j)
      {
        DeltaLeAlphaStep(p, o, t - 1, j);
      }
    }
  }

  /** One step of DeltaLeAlpha: row t of delta below row t of alpha puts
      delta[t+1][j] below alpha[t+1][j]. */
  lemma DeltaLeAlphaStep(p: Lambda, o: seq<int>, t: nat, j: int)
    requires NonNegative(p)
    requires forall i :: 0.0 <= Delta(p, o, t, i) <= Alpha(p, o, t, i)
    ensures Delta(p, o, t + 1, j) <= Alpha(p, o, t + 1, j)
  {
    CandidatesLeTerms(p, o, t, j);
    DeltaSucc(p, o, t, j);
    ScaledLe(Delta(p, o, t + 1, j), Alpha(p, o, t + 1, j),
             Max0(p.stateNum, Candidates(p, o, t, j)), Sum(p.stateNum, ForwardTerms(p, o, t, j)), B(p, Sym(o, t + 1), j));
  }

  /** The largest candidate for delta[t+1][j] is at most the sum of the
      forward terms for alpha[t+1][j]. */
  lemma CandidatesLeTerms(p: Lambda, o: seq<int>, t: nat, j: int)
    requires NonNegative(p)
    requires forall i :: 0.0 <= Delta(p, o, t, i) <= Alpha(p, o, t, i)
    ensures Max0(p.stateNum, Candidates(p, o, t, j)) <= Sum(p.stateNum, ForwardTerms(p, o, t, j))
  {
    Max0WeightedLeSum(p.stateNum, Candidates(p, o, t, j), ForwardTerms(p, o, t, j),
                      DeltaRow(p, o, t), AlphaRow(p, o, t), TransitionsInto(p, j));
  }

  /** The transition probabilities a[i][j] into state j. */
  function TransitionsInto(p: Lambda, j: int): int -> real
  {
    i => A(p, i, j)
  }

  /** x == m * b and y == s * b with m <= s and b >= 0 give x <= y. */
  lemma ScaledLe(x: real, y: real, m: real, s: real, b: real)
    requires x == m * b && y == s * b && m <= s && b >= 0.0
    ensures x <= y
  {
    MulLe(m, s, b);
  }

  /** The Viterbi score is at most the forward probability P(O | lambda). */
  lemma ViterbiLeForward(p: Lambda, o: seq<int>)
    requires NonNegative(p)
    ensures 0.0 <= ViterbiProb(p, o) <= ForwardProb(p, o)
  {
    if |o| > 0 {
      var t := |o| - 1;
      DeltaLeAlpha(p, o, t);
      AlphaNonNegative(p, o, t);
      Max0Bounds(p.stateNum, DeltaRow(p, o, t));
      Max0Le(p.stateNum, DeltaRow(p, o, t), AlphaRow(p, o, t));
      Max0LeSum(p.stateNum, AlphaRow(p, o, t));
    }
  }
}
