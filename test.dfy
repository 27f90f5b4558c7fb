// test.c: viterbi_algo filling the delta and psi tables and backtracking the
// state path, forward_algo returning P(O | lambda), and the loop of `main`
// that labels every test sequence with the most likely of five models.

module Test {
  import opened Sums
  import opened Model
  import opened MyHead
  import opened Recurrences
  import opened Viterbi
  import Train

  // ---------------------------------------------------------------------
  // viterbi_algo (test.c:12-62)

  /** viterbi_algo. `argInit` is the value the uninitialised `arg_max`
      holds before the first comparison and `qInit` the one `q.seq[T-1]`
      holds before termination; both are taken to be states, so that every
      back-pointer psi stores and follows is a state. The path `q` is a
      local of the C function; here it is returned. */
  method ViterbiAlgo(hmm: Hmm, ghost p: Lambda, observ: Observation, delta: Table, psi: Table, argInit: int, qInit: int)
    returns (prob: real, q: array<int>)
    requires hmm.Stores(p) && Train.Fits(hmm, observ)
    requires Train.Room(delta.table, observ.seqNum, hmm.stateNum) && Train.Room(psi.table, observ.seqNum, hmm.stateNum)
    requires delta != psi && delta.table != psi.table
    requires delta.table != hmm.transition && delta.table != hmm.observation
    requires psi.table != hmm.transition && psi.table != hmm.observation
    requires 0 <= argInit < hmm.stateNum && 0 <= qInit < hmm.stateNum
    modifies delta, delta.table, psi, psi.table
    ensures delta.seqNum == observ.seqNum && delta.stateNum == hmm.stateNum
    ensures psi.seqNum == observ.seqNum && psi.stateNum == hmm.stateNum
    ensures forall t, j {:trigger delta.table[t, j]} :: 0 <= t < observ.seqNum && 0 <= j < hmm.stateNum ==>
              delta.table[t, j] == Delta(p, Symbols(observ), t, j)
    ensures forall t, j {:trigger psi.table[t, j]} :: 1 <= t < observ.seqNum && 0 <= j < hmm.stateNum ==>
              psi.table[t, j] == Psi(p, Symbols(observ), argInit, t, j) as real
    ensures prob == ViterbiProb(p, Symbols(observ))
    ensures fresh(q) && q[..] == PathSeq(p, Symbols(observ), argInit, qInit)
  {
    delta.seqNum, delta.stateNum := observ.seqNum, hmm.stateNum;
    psi.seqNum, psi.stateNum := observ.seqNum, hmm.stateNum;
    ViterbiInit(hmm, p, observ, delta);
    ViterbiRecursion(hmm, p, observ, delta, psi, argInit);
    prob, q := ViterbiFinish(hmm, p, observ, delta, psi, argInit, qInit);
  }

  /** Termination and path backtracking (test.c:45-59) over the filled
      tables. */
  method ViterbiFinish(hmm: Hmm, ghost p: Lambda, observ: Observation, delta: Table, psi: Table, argInit: int, qInit: int)
    returns (prob: real, q: array<int>)
    requires hmm.stateNum == p.stateNum && Train.Fits(hmm, observ)
    requires Train.Room(delta.table, observ.seqNum, hmm.stateNum) && Train.Room(psi.table, observ.seqNum, hmm.stateNum)
    requires 0 <= argInit < hmm.stateNum && 0 <= qInit < hmm.stateNum
    requires forall t, j {:trigger delta.table[t, j]} :: 0 <= t < observ.seqNum && 0 <= j < hmm.stateNum ==>
               delta.table[t, j] == Delta(p, Symbols(observ), t, j)
    requires forall t, j {:trigger psi.table[t, j]} :: 1 <= t < observ.seqNum && 0 <= j < hmm.stateNum ==>
               psi.table[t, j] == Psi(p, Symbols(observ), argInit, t, j) as real
    ensures prob == ViterbiProb(p, Symbols(observ))
    ensures fresh(q) && q[..] == PathSeq(p, Symbols(observ), argInit, qInit)
  {
    ghost var o := Symbols(observ);
    ghost var row := DeltaRow(p, o, |o| - 1);
    LastRowMatches(hmm, p, observ, delta);
    var last;
    prob, last := ViterbiTermination(hmm, observ, delta, row, qInit);
    TerminationMeaning(p, o, argInit, qInit);
    q := ViterbiBacktrack(hmm.stateNum, p, observ, psi, argInit, qInit, last);
  }

  /** Initialization (test.c:21-24): delta[0][i] = pi[i] * b[o[0]][i]. */
  method ViterbiInit(hmm: Hmm, ghost p: Lambda, observ: Observation, delta: Table)
    requires hmm.Stores(p) && Train.Fits(hmm, observ)
    requires Train.Room(delta.table, observ.seqNum, hmm.stateNum)
    requires delta.table != hmm.transition && delta.table != hmm.observation
    modifies delta.table
    ensures forall k {:trigger delta.table[0, k]} :: 0 <= k < hmm.stateNum ==> delta.table[0, k] == Delta(p, Symbols(observ), 0, k)
  {
    ghost var o := Symbols(observ);
    for i := 0 to hmm.stateNum
      invariant forall k {:trigger delta.table[0, k]} :: 0 <= k < i ==> delta.table[0, k] == Delta(p, o, 0, k)
    {
      DeltaAt(p, o, 0, i);
      delta.table[0, i] := hmm.initial[i] * hmm.observation[observ.buffer[0], i];
    }
  }

  /** Recursion (test.c:27-42): rows 1 .. T-1 of delta and psi, with
      arg_max carried from each entry to the next. */
  method ViterbiRecursion(hmm: Hmm, ghost p: Lambda, observ: Observation, delta: Table, psi: Table, argInit: int)
    requires hmm.Stores(p) && Train.Fits(hmm, observ)
    requires Train.Room(delta.table, observ.seqNum, hmm.stateNum) && Train.Room(psi.table, observ.seqNum, hmm.stateNum)
    requires delta.table != psi.table
    requires delta.table != hmm.transition && delta.table != hmm.observation
    requires psi.table != hmm.transition && psi.table != hmm.observation
    requires forall k {:trigger delta.table[0, k]} :: 0 <= k < hmm.stateNum ==> delta.table[0, k] == Delta(p, Symbols(observ), 0, k)
    modifies delta.table, psi.table
    ensures forall t, j {:trigger delta.table[t, j]} :: 0 <= t < observ.seqNum && 0 <= j < hmm.stateNum ==>
              delta.table[t, j] == Delta(p, Symbols(observ), t, j)
    ensures forall t, j {:trigger psi.table[t, j]} :: 1 <= t < observ.seqNum && 0 <= j < hmm.stateNum ==>
              psi.table[t, j] == Psi(p, Symbols(observ), argInit, t, j) as real
  {
    ghost var o := Symbols(observ);
    var n, T := hmm.stateNum, observ.seqNum;
    var argMax := argInit;
    for t := 0 to T - 1
      invariant forall s, k {:trigger delta.table[s, k]} :: 0 <= s <= t && 0 <= k < n ==> delta.table[s, k] == Delta(p, o, s, k)
      invariant forall s, k {:trigger psi.table[s, k]} :: 1 <= s <= t && 0 <= k < n ==> psi.table[s, k] == Psi(p, o, argInit, s, k) as real
      invariant argMax == PsiBefore(p, o, argInit, t + 1, 0)
    {
      argMax := ViterbiStep(hmm, p, observ, delta, psi, argInit, t, argMax);
    }
  }

  /** The last row of delta, as the termination loop reads it. */
  lemma LastRowMatches(hmm: Hmm, p: Lambda, observ: Observation, delta: Table)
    requires 1 <= observ.seqNum <= |observ.buffer| && Train.Room(delta.table, observ.seqNum, hmm.stateNum)
    requires forall t, j {:trigger delta.table[t, j]} :: 0 <= t < observ.seqNum && 0 <= j < hmm.stateNum ==>
               delta.table[t, j] == Delta(p, Symbols(observ), t, j)
    ensures forall i {:trigger delta.table[observ.seqNum - 1, i]} :: 0 <= i < hmm.stateNum ==>
              DeltaRow(p, Symbols(observ), |Symbols(observ)| - 1)(i) == delta.table[observ.seqNum - 1, i]
  {
  }

  /** The maximum of the last row of delta is the returned score, and the
      index recorded with it is the last state of the path. */
  lemma TerminationMeaning(p: Lambda, o: seq<int>, init: int, last: int)
    requires 1 <= |o|
    ensures Max0(p.stateNum, DeltaRow(p, o, |o| - 1)) == ViterbiProb(p, o)
    ensures ArgMax0(p.stateNum, DeltaRow(p, o, |o| - 1), last) == Path(p, o, init, last, |o| - 1)
  {
  }

  /** One step of the recursion (test.c:28-41): row t+1 of delta and psi
      from row t of delta; `argMax` is carried from one (t, j) to the next. */
  method ViterbiStep(hmm: Hmm, ghost p: Lambda, observ: Observation, delta: Table, psi: Table, ghost argInit: int, t: int, argIn: int)
    returns (argMax: int)
    requires hmm.Stores(p) && Train.Fits(hmm, observ)
    requires 0 <= t && t + 1 < observ.seqNum
    requires Train.Room(delta.table, observ.seqNum, hmm.stateNum) && Train.Room(psi.table, observ.seqNum, hmm.stateNum)
    requires delta.table != psi.table
    requires delta.table != hmm.transition && delta.table != hmm.observation
    requires psi.table != hmm.transition && psi.table != hmm.observation
    requires forall s, k {:trigger delta.table[s, k]} :: 0 <= s <= t && 0 <= k < hmm.stateNum ==>
               delta.table[s, k] == Delta(p, Symbols(observ), s, k)
    requires forall s, k {:trigger psi.table[s, k]} :: 1 <= s <= t && 0 <= k < hmm.stateNum ==>
               psi.table[s, k] == Psi(p, Symbols(observ), argInit, s, k) as real
    requires argIn == PsiBefore(p, Symbols(observ), argInit, t + 1, 0)
    modifies delta.table, psi.table
    ensures forall s, k {:trigger delta.table[s, k]} :: 0 <= s <= t + 1 && 0 <= k < hmm.stateNum ==>
              delta.table[s, k] == Delta(p, Symbols(observ), s, k)
    ensures forall s, k {:trigger psi.table[s, k]} :: 1 <= s <= t + 1 && 0 <= k < hmm.stateNum ==>
              psi.table[s, k] == Psi(p, Symbols(observ), argInit, s, k) as real
    ensures argMax == PsiBefore(p, Symbols(observ), argInit, t + 2, 0)
  {
    ghost var o := Symbols(observ);
    var n := hmm.stateNum;
    var next := t + 1;
    argMax := argIn;
    for j := 0 to n
      invariant forall s, k {:trigger delta.table[s, k]} :: 0 <= s <= t && 0 <= k < n ==> delta.table[s, k] == Delta(p, o, s, k)
      invariant forall k {:trigger delta.table[next, k]} :: 0 <= k < j ==> delta.table[next, k] == Delta(p, o, next, k)
      invariant forall s, k {:trigger psi.table[s, k]} :: 1 <= s <= t && 0 <= k < n ==> psi.table[s, k] == Psi(p, o, argInit, s, k) as real
      invariant forall k {:trigger psi.table[next, k]} :: 0 <= k < j ==> psi.table[next, k] == Psi(p, o, argInit, next, k) as real
      invariant argMax == PsiBefore(p, o, argInit, next, j)
    {
      argMax := ViterbiEntry(hmm, p, observ, delta, psi, argInit, t, j, argMax);
    }
    RowEnd(p, o, argInit, next);
  }

  /** delta[t+1][j] and psi[t+1][j] (test.c:29-40), leaving every other
      entry of both tables as it was. */
  method ViterbiEntry(hmm: Hmm, ghost p: Lambda, observ: Observation, delta: Table, psi: Table, ghost argInit: int, t: int, j: int, argIn: int)
    returns (argMax: int)
    requires hmm.Stores(p) && Train.Fits(hmm, observ)
    requires 0 <= t && t + 1 < observ.seqNum && 0 <= j < hmm.stateNum
    requires Train.Room(delta.table, observ.seqNum, hmm.stateNum) && Train.Room(psi.table, observ.seqNum, hmm.stateNum)
    requires delta.table != psi.table
    requires delta.table != hmm.transition && delta.table != hmm.observation
    requires psi.table != hmm.transition && psi.table != hmm.observation
    requires forall k {:trigger delta.table[t, k]} :: 0 <= k < hmm.stateNum ==> delta.table[t, k] == Delta(p, Symbols(observ), t, k)
    requires argIn == PsiBefore(p, Symbols(observ), argInit, t + 1, j)
    modifies delta.table, psi.table
    ensures delta.table[t + 1, j] == Delta(p, Symbols(observ), t + 1, j)
    ensures psi.table[t + 1, j] == Psi(p, Symbols(observ), argInit, t + 1, j) as real
    ensures argMax == Psi(p, Symbols(observ), argInit, t + 1, j)
    ensures forall s, k {:trigger delta.table[s, k]} :: 0 <= s < delta.table.Length0 && 0 <= k < delta.table.Length1 && (s != t + 1 || k != j) ==>
              delta.table[s, k] == old(delta.table[s, k])
    ensures forall s, k {:trigger psi.table[s, k]} :: 0 <= s < psi.table.Length0 && 0 <= k < psi.table.Length1 && (s != t + 1 || k != j) ==>
              psi.table[s, k] == old(psi.table[s, k])
  {
    ghost var o := Symbols(observ);
    CandidatesMatch(hmm, p, observ, delta, t, j);
    var max;
    max, argMax := ViterbiMax(hmm, observ, delta, t, j, Candidates(p, o, t, j), argIn);
    ViterbiScale(hmm, p, observ, delta, t, j, max);
    psi.table[t + 1, j] := argMax as real;
  }

  /** delta[t+1][j] = max * b[o_{t+1}][j] (test.c:39). */
  method ViterbiScale(hmm: Hmm, ghost p: Lambda, observ: Observation, delta: Table, t: int, j: int, max: real)
    requires hmm.Stores(p) && Train.Fits(hmm, observ)
    requires 0 <= t && t + 1 < observ.seqNum && 0 <= j < hmm.stateNum
    requires Train.Room(delta.table, observ.seqNum, hmm.stateNum)
    requires delta.table != hmm.transition && delta.table != hmm.observation
    requires max == Max0(p.stateNum, Candidates(p, Symbols(observ), t, j))
    modifies delta.table
    ensures delta.table[t + 1, j] == Delta(p, Symbols(observ), t + 1, j)
    ensures forall s, k {:trigger delta.table[s, k]} :: 0 <= s < delta.table.Length0 && 0 <= k < delta.table.Length1 && (s != t + 1 || k != j) ==>
              delta.table[s, k] == old(delta.table[s, k])
  {
    ghost var o := Symbols(observ);
    var symbol := observ.buffer[t + 1];
    assert Sym(o, t + 1) == symbol;
    var b := hmm.observation[symbol, j];
    DeltaSucc(p, o, t, j);
    EqualScaled(Delta(p, o, t + 1, j), Max0(p.stateNum, Candidates(p, o, t, j)), B(p, Sym(o, t + 1), j), max, b);
    delta.table[t + 1, j] := max * b;
  }

  /** A product whose factors are replaced by equal ones. */
  lemma EqualScaled(x: real, m: real, b: real, m': real, b': real)
    requires x == m * b && m == m' && b == b'
    ensures x == m' * b'
  {
  }

  /** arg_max after the last state of row t is the value it holds before
      the first state of row t+1. */
  lemma RowEnd(p: Lambda, o: seq<int>, init: int, t: nat)
    requires t >= 1
    ensures PsiBefore(p, o, init, t + 1, 0) == PsiBefore(p, o, init, t, p.stateNum)
  {
    if p.stateNum == 0 {
      assert Psi(p, o, init, t, -1) == PsiBefore(p, o, init, t, -1);
    }
  }

  /** The innermost loop (test.c:29-37): the running maximum of the
      candidates delta[t][i] * a[i][j] under `>`, starting from 0, and the
      index it records, starting from the value `argIn` of arg_max. */
  method ViterbiMax(hmm: Hmm, observ: Observation, delta: Table, t: int, j: int, ghost c: int -> real, argIn: int)
    returns (max: real, argMax: int)
    requires 0 <= t < observ.seqNum && 0 <= j < hmm.stateNum && hmm.Valid()
    requires Train.Room(delta.table, observ.seqNum, hmm.stateNum)
    requires forall i :: 0 <= i < hmm.stateNum ==> c(i) == delta.table[t, i] * hmm.transition[i, j]
    ensures max == Max0(hmm.stateNum, c) && argMax == ArgMax0(hmm.stateNum, c, argIn)
  {
    max, argMax := 0.0, argIn;
    for i := 0 to hmm.stateNum
      invariant max == Max0(i, c) && argMax == ArgMax0(i, c, argIn)
    {
      var tmp := delta.table[t, i] * hmm.transition[i, j];
      if tmp > max {
        argMax := i;
        max := tmp;
      }
    }
  }

  /** Every candidate for delta[t+1][j] is the product of two entries the
      program reads. */
  lemma CandidatesMatch(hmm: Hmm, p: Lambda, observ: Observation, delta: Table, t: int, j: int)
    requires hmm.Stores(p) && Train.Fits(hmm, observ)
    requires 0 <= t < observ.seqNum && 0 <= j < hmm.stateNum
    requires Train.Room(delta.table, observ.seqNum, hmm.stateNum)
    requires forall i {:trigger delta.table[t, i]} :: 0 <= i < hmm.stateNum ==> delta.table[t, i] == Delta(p, Symbols(observ), t, i)
    ensures forall i :: 0 <= i < hmm.stateNum ==>
      Candidates(p, Symbols(observ), t, j)(i) == delta.table[t, i] * hmm.transition[i, j]
  {
    forall i | 0 <= i < hmm.stateNum
      ensures Candidates(p, Symbols(observ), t, j)(i) == delta.table[t, i] * hmm.transition[i, j]
    {
      CandidateIs(p, Symbols(observ), t, i, j, delta.table[t, i], hmm.transition[i, j]);
    }
  }

  /** The candidate delta[t][i] * a[i][j] computed from entries equal to
      delta[t][i] and a[i][j]. */
  lemma CandidateIs(p: Lambda, o: seq<int>, t: nat, i: int, j: int, d: real, a: real)
    requires d == Delta(p, o, t, i) && a == A(p, i, j)
    ensures Candidates(p, o, t, j)(i) == d * a
  {
    DeltaAt(p, o, t, j);
  }

  /** Termination (test.c:45-54): the running maximum p of the last row of
      delta and the index q[T-1] it records, which keeps `qInit` when no
      entry is positive. */
  method ViterbiTermination(hmm: Hmm, observ: Observation, delta: Table, ghost row: int -> real, qInit: int)
    returns (prob: real, last: int)
    requires 1 <= observ.seqNum && Train.Room(delta.table, observ.seqNum, hmm.stateNum)
    requires forall i :: 0 <= i < hmm.stateNum ==> row(i) == delta.table[observ.seqNum - 1, i]
    ensures prob == Max0(hmm.stateNum, row) && last == ArgMax0(hmm.stateNum, row, qInit)
  {
    var T := observ.seqNum;
    prob, last := 0.0, qInit;
    for i := 0 to hmm.stateNum
      invariant prob == Max0(i, row) && last == ArgMax0(i, row, qInit)
    {
      if delta.table[T - 1, i] > prob {
        prob := delta.table[T - 1, i];
        last := i;
      }
    }
  }

  /** Path backtracking (test.c:57-59): q[t] = psi[t+1][q[t+1]] for
      t = T-2 down to 0. psi holds the pointers as doubles, which are read
      back as integers. */
  method ViterbiBacktrack(n: int, ghost p: Lambda, observ: Observation, psi: Table, argInit: int, qInit: int, last: int)
    returns (q: array<int>)
    requires n == p.stateNum && 1 <= observ.seqNum <= |observ.buffer|
    requires Train.Room(psi.table, observ.seqNum, n)
    requires 0 <= argInit < n && 0 <= qInit < n
    requires forall s, k {:trigger psi.table[s, k]} :: 1 <= s < observ.seqNum && 0 <= k < n ==>
               psi.table[s, k] == Psi(p, Symbols(observ), argInit, s, k) as real
    requires last == Path(p, Symbols(observ), argInit, qInit, observ.seqNum - 1)
    ensures fresh(q) && q[..] == PathSeq(p, Symbols(observ), argInit, qInit)
  {
    ghost var path := PathSeq(p, Symbols(observ), argInit, qInit);
    PathFollowsPointers(p, Symbols(observ), psi, argInit, qInit);
    q := FollowPointers(psi, observ.seqNum, n, path, last);
  }

  /** The backtracking loop itself, over the pointers read back from psi:
      it rebuilds any sequence of states that follows them and ends in
      `last`. */
  method FollowPointers(psi: Table, T: int, n: int, ghost path: seq<int>, last: int) returns (q: array<int>)
    requires 1 <= T <= psi.table.Length0 && n <= psi.table.Length1
    requires |path| == T && path[T - 1] == last
    requires forall t :: 0 <= t < T ==> 0 <= path[t] < n
    requires forall t :: 0 <= t < T - 1 ==> path[t] == psi.table[t + 1, path[t + 1]].Floor
    ensures fresh(q) && q[..] == path
  {
    q := new int[T];
    q[T - 1] := last;
    var t := T - 1;
    while t > 0
      invariant 0 <= t < T
      invariant forall k :: t <= k < T ==> q[k] == path[k]
      decreases t
    {
      t := t - 1;
      q[t] := psi.table[t + 1, q[t + 1]].Floor;
    }
  }

  /** The path of the model follows the pointers psi holds. */
  lemma PathFollowsPointers(p: Lambda, o: seq<int>, psi: Table, init: int, last: int)
    requires 0 <= init < p.stateNum && 0 <= last < p.stateNum && 1 <= |o|
    requires Train.Room(psi.table, |o|, p.stateNum)
    requires forall s, k {:trigger psi.table[s, k]} :: 1 <= s < |o| && 0 <= k < p.stateNum ==>
               psi.table[s, k] == Psi(p, o, init, s, k) as real
    ensures forall t :: 0 <= t < |o| ==> 0 <= PathSeq(p, o, init, last)[t] < p.stateNum
    ensures forall t :: 0 <= t < |o| - 1 ==>
              PathSeq(p, o, init, last)[t] == psi.table[t + 1, PathSeq(p, o, init, last)[t + 1]].Floor
  {
    var path := PathSeq(p, o, init, last);
    forall t | 0 <= t < |o|
      ensures 0 <= path[t] < p.stateNum
    {
      PathInRange(p, o, init, last, t);
    }
    forall t | 0 <= t < |o| - 1
      ensures path[t] == psi.table[t + 1, path[t + 1]].Floor
    {
      PathInRange(p, o, init, last, t + 1);
      BacktrackStep(p, o, init, last, t, path[t + 1], psi.table[t + 1, path[t + 1]]);
    }
  }

  /** Reading back the pointer psi[t+1][q[t+1]] as an integer gives the
      state q[t] of the path. */
  lemma BacktrackStep(p: Lambda, o: seq<int>, init: int, last: int, t: nat, next: int, v: real)
    requires 0 <= init < p.stateNum && 0 <= last < p.stateNum && t + 1 < |o|
    requires next == Path(p, o, init, last, t + 1) && v == Psi(p, o, init, t + 1, next) as real
    ensures v.Floor == Path(p, o, init, last, t) && 0 <= v.Floor < p.stateNum
  {
    PathUnfold(p, o, init, last, t);
    PathInRange(p, o, init, last, t);
  }

  // ---------------------------------------------------------------------
  // forward_algo (test.c:70-101)

  /** forward_algo of test.c. Its table-filling part is the same loop as
      the one in train.c; the termination sum is returned. */
  method ForwardAlgo(hmm: Hmm, ghost p: Lambda, observ: Observation, alpha: Table) returns (prob: real)
    requires hmm.Stores(p) && Train.Fits(hmm, observ)
    requires Train.Room(alpha.table, observ.seqNum, hmm.stateNum)
    requires alpha.table != hmm.transition && alpha.table != hmm.observation
    modifies alpha, alpha.table
    ensures alpha.seqNum == observ.seqNum && alpha.stateNum == hmm.stateNum
    ensures forall t, j {:trigger alpha.table[t, j]} :: 0 <= t < observ.seqNum && 0 <= j < hmm.stateNum ==>
              alpha.table[t, j] == Alpha(p, Symbols(observ), t, j)
    ensures prob == ForwardProb(p, Symbols(observ))
  {
    Train.ForwardAlgo(hmm, p, observ, alpha);
    ghost var o := Symbols(observ);
    var T := observ.seqNum;

    // Termination
    prob := 0.0;
    for i := 0 to hmm.stateNum
      invariant prob == Sum(i, AlphaRow(p, o, T - 1))
    {
      prob := prob + alpha.table[T - 1, i];
    }
  }

  // ---------------------------------------------------------------------
  // Classification (test.c:129-142)

  /** The number of models `main` loads and compares. */
  const ModelNum := 5

  /** The forward score of sequence o under model j (0 outside the models). */
  function Scores(ps: seq<Lambda>, o: seq<int>): int -> real
  {
    j => if 0 <= j < |ps| then ForwardProb(ps[j], o) else 0.0
  }

  /** likelihood[i]: the running maximum of the scores, starting from 0. */
  function Likelihood(ps: seq<Lambda>, o: seq<int>): real
  {
    Max0(|ps|, Scores(ps, o))
  }

  /** pred[i]: the index arg_max holds after the models are compared for
      test i. arg_max is declared once in `main`, so a test on which no
      score is positive keeps the label of the test before it (`init` for
      the first test). */
  function Pred(ps: seq<Lambda>, tests: seq<Observation>, init: int, i: nat): int
    requires i < |tests|
    decreases i
  {
    ArgMax0(|ps|, Scores(ps, Symbols(tests[i])), if i == 0 then init else Pred(ps, tests, init, i - 1))
  }

  /** The labels of the first n tests. */
  function Preds(ps: seq<Lambda>, tests: seq<Observation>, init: int, n: nat): (r: seq<int>)
    requires n <= |tests|
  {
    seq(n, i requires 0 <= i < n => Pred(ps, tests, init, i))
  }

  /** Labelling one more test appends its label. */
  lemma PredsStep(ps: seq<Lambda>, tests: seq<Observation>, init: int, n: nat)
    requires n < |tests|
    ensures Preds(ps, tests, init, n + 1) == Preds(ps, tests, init, n) + [Pred(ps, tests, init, n)]
  {
    var longer, shorter := Preds(ps, tests, init, n + 1), Preds(ps, tests, init, n);
    forall i | 0 <= i < n + 1
      ensures longer[i] == (shorter + [Pred(ps, tests, init, n)])[i]
    {
      if i < n {
        assert longer[i] == Pred(ps, tests, init, i) == shorter[i];
      }
    }
  }

  /** The likelihoods of the first n tests. */
  function Likelihoods(ps: seq<Lambda>, tests: seq<Observation>, n: nat): (r: seq<real>)
    requires n <= |tests|
  {
    seq(n, i requires 0 <= i < n => Likelihood(ps, Symbols(tests[i])))
  }

  /** Scoring one more test appends its likelihood. */
  lemma LikelihoodsStep(ps: seq<Lambda>, tests: seq<Observation>, n: nat)
    requires n < |tests|
    ensures Likelihoods(ps, tests, n + 1) == Likelihoods(ps, tests, n) + [Likelihood(ps, Symbols(tests[n]))]
  {
    assert forall i :: 0 <= i < n ==> Likelihoods(ps, tests, n + 1)[i] == Likelihoods(ps, tests, n)[i];
  }

  /** What the labels mean: the likelihood is the largest score; when it is
      positive the label is the lowest model attaining it, and otherwise
      the label is the previous one. */
  lemma PredChoice(ps: seq<Lambda>, tests: seq<Observation>, init: int, i: nat)
    requires i < |tests|
    ensures forall j :: 0 <= j < |ps| ==> ForwardProb(ps[j], Symbols(tests[i])) <= Likelihood(ps, Symbols(tests[i]))
    ensures Likelihood(ps, Symbols(tests[i])) >= 0.0
    ensures Likelihood(ps, Symbols(tests[i])) > 0.0 ==>
              0 <= Pred(ps, tests, init, i) < |ps|
              && ForwardProb(ps[Pred(ps, tests, init, i)], Symbols(tests[i])) == Likelihood(ps, Symbols(tests[i]))
              && forall j :: 0 <= j < Pred(ps, tests, init, i) ==> ForwardProb(ps[j], Symbols(tests[i])) < Likelihood(ps, Symbols(tests[i]))
    ensures Likelihood(ps, Symbols(tests[i])) == 0.0 ==>
              Pred(ps, tests, init, i) == if i == 0 then init else Pred(ps, tests, init, i - 1)
  {
    var o := Symbols(tests[i]);
    var prev := if i == 0 then init else Pred(ps, tests, init, i - 1);
    Max0Bounds(|ps|, Scores(ps, o));
    ArgMax0Spec(|ps|, Scores(ps, o), prev);
    forall j | 0 <= j < |ps|
      ensures Scores(ps, o)(j) == ForwardProb(ps[j], o)
    {
    }
  }

  /** With non-negative parameters every score is non-negative, so a zero
      likelihood means that every model scores 0. */
  lemma ZeroLikelihood(ps: seq<Lambda>, o: seq<int>)
    requires forall j :: 0 <= j < |ps| ==> NonNegative(ps[j])
    requires Likelihood(ps, o) == 0.0
    ensures forall j :: 0 <= j < |ps| ==> ForwardProb(ps[j], o) == 0.0
  {
    Max0Bounds(|ps|, Scores(ps, o));
    forall j | 0 <= j < |ps|
      ensures ForwardProb(ps[j], o) == 0.0
    {
      ViterbiLeForward(ps[j], o);
      assert Scores(ps, o)(j) == ForwardProb(ps[j], o);
    }
  }

  /** The five models hold the parameter values ps. */
  ghost predicate Loaded(hmms: seq<Hmm>, ps: seq<Lambda>)
    reads set j | 0 <= j < |hmms| :: hmms[j]
    reads set j | 0 <= j < |hmms| :: hmms[j].initial
    reads set j | 0 <= j < |hmms| :: hmms[j].transition
    reads set j | 0 <= j < |hmms| :: hmms[j].observation
  {
    |hmms| == ModelNum && |ps| == ModelNum && forall j :: 0 <= j < ModelNum ==> hmms[j].Stores(ps[j])
  }

  /** The buffers the loop writes are none of the models' arrays. */
  ghost predicate Scratch(hmms: seq<Hmm>, alpha: Table, likelihood: array<real>)
  {
    forall j :: 0 <= j < |hmms| ==>
      alpha.table != hmms[j].transition && alpha.table != hmms[j].observation && likelihood != hmms[j].initial
  }

  /** Observation ob can be scored by every model: its symbols are symbols
      of the model and alpha has room for it. */
  ghost predicate Scorable(ps: seq<Lambda>, ob: Observation, alpha: Table)
  {
    forall j :: 0 <= j < |ps| ==> Train.Observes(ob, ps[j].observNum) && Train.Room(alpha.table, ob.seqNum, ps[j].stateNum)
  }

  /** The loop of `main` (test.c:129-142): every test sequence is scored
      by forward_algo under each of the five models, and the largest score
      and the index of the model that reached it are stored. `argInit` is
      the value the uninitialised arg_max holds before the first test. */
  method Classify(hmms: seq<Hmm>, ghost ps: seq<Lambda>, test: array<Observation>, testNum: int, alpha: Table,
                  pred: array<int>, likelihood: array<real>, argInit: int)
    requires Loaded(hmms, ps) && Scratch(hmms, alpha, likelihood)
    requires 0 <= testNum <= test.Length && testNum <= pred.Length && testNum <= likelihood.Length
    requires forall i :: 0 <= i < testNum ==> Scorable(ps, test[i], alpha)
    modifies alpha, alpha.table, pred, likelihood
    ensures pred[..] == Preds(ps, old(test[..testNum]), argInit, testNum) + old(pred[..])[testNum..]
    ensures likelihood[..] == Likelihoods(ps, old(test[..testNum]), testNum) + old(likelihood[..])[testNum..]
  {
    ghost var tests := test[..testNum];
    ghost var pred0, likelihood0 := pred[..], likelihood[..];
    var argMax := argInit;
    for i := 0 to testNum
      invariant Loaded(hmms, ps)
      invariant pred[..] == Preds(ps, tests, argInit, i) + pred0[i..]
      invariant likelihood[..] == Likelihoods(ps, tests, i) + likelihood0[i..]
      invariant argMax == if i == 0 then argInit else Pred(ps, tests, argInit, i - 1)
    {
      assert test[i] == tests[i];
      argMax := ClassifyStep(hmms, ps, tests, test[i], i, alpha, pred, likelihood, pred0, likelihood0, argInit, argMax);
    }
  }

  /** One test of the loop (test.c:130-140): the best of the five scores
      and the model reaching it are stored at index i, extending the
      labels and likelihoods of the tests before it. */
  method ClassifyStep(hmms: seq<Hmm>, ghost ps: seq<Lambda>, ghost tests: seq<Observation>, ob: Observation, i: int,
                      alpha: Table, pred: array<int>, likelihood: array<real>,
                      ghost pred0: seq<int>, ghost likelihood0: seq<real>, ghost init: int, argIn: int)
    returns (argMax: int)
    requires Loaded(hmms, ps) && Scratch(hmms, alpha, likelihood) && Scorable(ps, ob, alpha)
    requires 0 <= i < |tests| && i < |pred0| == pred.Length && i < |likelihood0| == likelihood.Length && ob == tests[i]
    requires argIn == if i == 0 then init else Pred(ps, tests, init, i - 1)
    requires pred[..] == Preds(ps, tests, init, i) + pred0[i..]
    requires likelihood[..] == Likelihoods(ps, tests, i) + likelihood0[i..]
    modifies alpha, alpha.table, pred, likelihood
    ensures Loaded(hmms, ps)
    ensures argMax == Pred(ps, tests, init, i)
    ensures pred[..] == Preds(ps, tests, init, i + 1) + pred0[i + 1..]
    ensures likelihood[..] == Likelihoods(ps, tests, i + 1) + likelihood0[i + 1..]
  {
    var max;
    max, argMax := ClassifyOne(hmms, ps, ob, alpha, likelihood, argIn);
    Store(hmms, ps, alpha, pred, likelihood, i, argMax, max);
    PredsStep(ps, tests, init, i);
    UpdateFrontier(Preds(ps, tests, init, i), pred0, Pred(ps, tests, init, i), i);
    LikelihoodsStep(ps, tests, i);
    UpdateFrontier(Likelihoods(ps, tests, i), likelihood0, Likelihood(ps, Symbols(tests[i])), i);
  }

  /** pred[i] = arg_max and likelihood[i] = max (test.c:139-140); the
      models are not touched. */
  method Store(hmms: seq<Hmm>, ghost ps: seq<Lambda>, alpha: Table, pred: array<int>, likelihood: array<real>,
               i: int, choice: int, score: real)
    requires Loaded(hmms, ps) && Scratch(hmms, alpha, likelihood)
    requires 0 <= i < pred.Length && i < likelihood.Length
    modifies pred, likelihood
    ensures Loaded(hmms, ps)
    ensures pred[..] == old(pred[..])[i := choice]
    ensures likelihood[..] == old(likelihood[..])[i := score]
  {
    pred[i] := choice;
    likelihood[i] := score;
  }

  /** Storing x at the first untouched index i extends the written prefix. */
  lemma UpdateFrontier<T>(done: seq<T>, rest: seq<T>, x: T, i: int)
    requires |done| == i && 0 <= i < |rest|
    ensures (done + rest[i..])[i := x] == (done + [x]) + rest[i + 1..]
  {
    assert rest[i..] == [rest[i]] + rest[i + 1..];
  }

  /** The inner loop over the models for one test sequence: the running
      maximum of the forward scores under `>`, starting from 0, and the
      index it records, starting from the value `argIn` of arg_max. */
  method ClassifyOne(hmms: seq<Hmm>, ghost ps: seq<Lambda>, ob: Observation, alpha: Table, ghost likelihood: array<real>, argIn: int)
    returns (max: real, argMax: int)
    requires Loaded(hmms, ps) && Scratch(hmms, alpha, likelihood) && Scorable(ps, ob, alpha)
    modifies alpha, alpha.table
    ensures Loaded(hmms, ps)
    ensures max == Likelihood(ps, Symbols(ob))
    ensures argMax == ArgMax0(|ps|, Scores(ps, Symbols(ob)), argIn)
  {
    ghost var scores := Scores(ps, Symbols(ob));
    max, argMax := 0.0, argIn;
    for j := 0 to |hmms|
      invariant Loaded(hmms, ps)
      invariant max == Max0(j, scores) && argMax == ArgMax0(j, scores, argIn)
    {
      var prob := Score(hmms, ps, ob, alpha, likelihood, j);
      max, argMax := Compare(scores, j, prob, max, argMax, argIn);
    }
  }

  /** if (prob > max) { max = prob; arg_max = j; } (test.c:135-138): one
      more step of the running maximum of f and of the index it records. */
  method Compare(ghost f: int -> real, j: int, prob: real, maxIn: real, argIn: int, ghost init: int)
    returns (max: real, argMax: int)
    requires 0 <= j && prob == f(j)
    requires maxIn == Max0(j, f) && argIn == ArgMax0(j, f, init)
    ensures max == Max0(j + 1, f) && argMax == ArgMax0(j + 1, f, init)
  {
    max, argMax := maxIn, argIn;
    if prob > max {
      max := prob;
      argMax := j;
    }
  }

  /** prob = forward_algo(&hmms[j], &test[i], &alpha) (test.c:133): the
      score of model j; only alpha is written. */
  method Score(hmms: seq<Hmm>, ghost ps: seq<Lambda>, ob: Observation, alpha: Table, ghost likelihood: array<real>, j: int)
    returns (prob: real)
    requires Loaded(hmms, ps) && Scratch(hmms, alpha, likelihood) && Scorable(ps, ob, alpha) && 0 <= j < |hmms|
    modifies alpha, alpha.table
    ensures Loaded(hmms, ps)
    ensures prob == Scores(ps, Symbols(ob))(j)
  {
    prob := ForwardAlgo(hmms[j], ps[j], ob, alpha);
  }
}
